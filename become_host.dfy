/** The five-step host registration wizard: a step counter moved by the
    Back and Next buttons and by submitting, the form fields it collects,
    and the progress bar over the five steps. */
module BecomeHost {
  import opened Common

  const FirstStep: int := 1
  const LastStep: int := 5

  const StepTitles: seq<string> := ["Host Info", "Vehicle Info", "Documents", "Pricing", "Agreement"]

  const CompletedAlert: string := "Registration completed successfully!"

  /** The form's fields: every one starts empty except `availability`. */
  const InitialFormData: map<string, string> := map[
    "fullName" := "", "email" := "", "phone" := "", "city" := "", "state" := "",
    "pincode" := "", "licenseNumber" := "", "licenseExpiry" := "",
    "carMake" := "", "carModel" := "", "carYear" := "", "registrationNumber" := "",
    "fuelType" := "", "transmission" := "", "seats" := "", "carType" := "",
    "dailyRate" := "", "weeklyDiscount" := "", "monthlyDiscount" := "", "availability" := "always",
    "bankAccount" := "", "ifscCode" := "", "accountName" := ""]

  predicate InRange(step: int) {
    FirstStep <= step <= LastStep
  }

  /** `nextStep`: one step forward, except on the last step. */
  function Next(step: int): (r: int)
    ensures step < LastStep ==> r == step + 1
    ensures step >= LastStep ==> r == step
    ensures InRange(step) ==> InRange(r)
  {
    if step < LastStep then step + 1 else step
  }

  /** `prevStep`: one step back, except on the first step. */
  function Prev(step: int): (r: int)
    ensures step > FirstStep ==> r == step - 1
    ensures step <= FirstStep ==> r == step
    ensures InRange(step) ==> InRange(r)
  {
    if step > FirstStep then step - 1 else step
  }

  /** Going forward and then back returns to the same step, below the last. */
  lemma NextThenPrev(step: int)
    requires FirstStep <= step < LastStep
    ensures Prev(Next(step)) == step
  {
  }

  /** Going back and then forward returns to the same step, above the first. */
  lemma PrevThenNext(step: int)
    requires FirstStep < step <= LastStep
    ensures Next(Prev(step)) == step
  {
  }

  /** `handleSubmit`'s effect on the step, and whether it completes the
      registration: only on the last step, where the step stays. */
  function Submit(step: int): (r: (int, bool))
    ensures r.1 <==> step == LastStep
    ensures step == LastStep ==> r.0 == step
    ensures step != LastStep ==> r.0 == Next(step)
  {
    if step == LastStep then (step, true) else (Next(step), false)
  }

  /** A click on the wizard's controls. */
  datatype Action = ClickBack | ClickNext | ClickSubmit

  function Step(step: int, a: Action): int {
    match a
    case ClickBack => Prev(step)
    case ClickNext => Next(step)
    case ClickSubmit => Submit(step).0
  }

  /** The step after a run of clicks. */
  function Run(step: int, actions: seq<Action>): int
    decreases |actions|
  {
    if actions == [] then step else Run(Step(step, actions[0]), actions[1..])
  }

  /** Whatever the clicks, the step never leaves 1..5. */
  lemma {:induction false} RunStaysInRange(step: int, actions: seq<Action>)
    requires InRange(step)
    ensures InRange(Run(step, actions))
    decreases |actions|
  {
    if actions != [] {
      var next := Step(step, actions[0]);
      assert InRange(next);
      RunStaysInRange(next, actions[1..]);
    }
  }

  /** Submitting from step 1 moves through the steps one at a time; the
      fifth submit is the first that completes. */
  lemma SubmitWalk()
    ensures Run(FirstStep, [ClickSubmit, ClickSubmit, ClickSubmit, ClickSubmit]) == LastStep
    ensures forall k :: FirstStep <= k < LastStep ==> !Submit(k).1
    ensures Submit(LastStep).1
  {
  }

  /** A step's circle shows the check mark iff the wizard is past it. */
  predicate StepCompleted(currentStep: int, number: int) {
    currentStep > number
  }

  /** A step's title is highlighted iff the wizard has reached it. */
  predicate StepReached(currentStep: int, number: int) {
    currentStep >= number
  }

  /** Every step before the current one is shown completed, and none from
      the current one on. */
  lemma CompletedAreBefore(currentStep: int)
    requires InRange(currentStep)
    ensures forall n :: FirstStep <= n <= LastStep ==>
              (StepCompleted(currentStep, n) <==> n < currentStep)
    ensures !StepCompleted(currentStep, currentStep) && StepReached(currentStep, currentStep)
  {
  }

  /** The filled share of the progress line, in percent:
      `(currentStep - 1) / (steps.length - 1) * 100`. */
  function ProgressPercent(currentStep: int): (p: int)
    requires InRange(currentStep)
    ensures 0 <= p <= 100
    ensures p * (|StepTitles| - 1) == (currentStep - 1) * 100
  {
    (currentStep - 1) * 100 / (|StepTitles| - 1)
  }

  /** The bar is empty on the first step, full on the last, and grows with
      every step forward. */
  lemma ProgressGrows(step: int)
    requires FirstStep <= step < LastStep
    ensures ProgressPercent(FirstStep) == 0 && ProgressPercent(LastStep) == 100
    ensures ProgressPercent(step) < ProgressPercent(Next(step))
  {
  }

  predicate BackDisabled(currentStep: int) {
    currentStep == FirstStep
  }

  function SubmitLabel(currentStep: int): (s: string)
    ensures currentStep == LastStep ==> s == "Submit Application"
    ensures currentStep != LastStep ==> s == "Next Step"
  {
    if currentStep == LastStep then "Submit Application" else "Next Step"
  }

  /** Back is disabled exactly where it would do nothing. */
  lemma BackDisabledIsNoOp(step: int)
    requires InRange(step)
    ensures BackDisabled(step) <==> Prev(step) == step
  {
  }

  class HostWizard {
    var currentStep: int
    var formData: map<string, string>

    predicate Valid()
      reads this
    {
      InRange(currentStep) && formData.Keys == InitialFormData.Keys
    }

    constructor ()
      ensures Valid()
      ensures currentStep == FirstStep && formData == InitialFormData
    {
      currentStep := FirstStep;
      formData := InitialFormData;
    }

    /** `handleInputChange` for one of the form's inputs: only that field
        changes. */
    method HandleInputChange(name: string, value: string)
      requires Valid() && name in InitialFormData
      modifies this
      ensures Valid()
      ensures formData == old(formData)[name := value]
      ensures forall k :: k in formData && k != name ==> formData[k] == old(formData)[k]
      ensures currentStep == old(currentStep)
    {
      formData := formData[name := value];
    }

    method NextStep()
      requires Valid()
      modifies this
      ensures Valid()
      ensures currentStep == Next(old(currentStep)) && formData == old(formData)
    {
      if currentStep < LastStep {
        currentStep := currentStep + 1;
      }
    }

    method PrevStep()
      requires Valid()
      modifies this
      ensures Valid()
      ensures currentStep == Prev(old(currentStep)) && formData == old(formData)
    {
      if currentStep > FirstStep {
        currentStep := currentStep - 1;
      }
    }

    /** `handleSubmit`: the completion alert on the last step, else the
        next step. */
    method HandleSubmit() returns (alert: Option<string>)
      requires Valid()
      modifies this
      ensures Valid()
      ensures currentStep == Submit(old(currentStep)).0 && formData == old(formData)
      ensures alert.Some? <==> Submit(old(currentStep)).1
      ensures alert.Some? ==> alert.value == CompletedAlert
    {
      if currentStep == LastStep {
        alert := Some(CompletedAlert);
      } else {
        alert := None;
        NextStep();
      }
    }
  }
}
