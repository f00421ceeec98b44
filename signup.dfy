/** The sign-up page: the form, its two password checks in order, and the
    hand-off to the session service. */
module Signup {
  import opened Common
  import opened Browser
  import opened Auth

  datatype SignupForm = SignupForm(fullName: string, email: string, password: string, confirmPassword: string)

  datatype Field = FullName | Email | Password | ConfirmPassword

  const EmptyForm: SignupForm := SignupForm("", "", "", "")

  const MismatchMessage: string := "Passwords do not match!"
  const TooShortMessage: string := "Password must be at least 6 characters long!"
  const CreatedAlert: string := "Account created successfully!"
  const SignupFailedMessage: string := "Signup failed. Please try again."
  const MinPasswordLength: int := 6

  function GetField(f: SignupForm, name: Field): string {
    match name
    case FullName => f.fullName
    case Email => f.email
    case Password => f.password
    case ConfirmPassword => f.confirmPassword
  }

  /** The form after typing into one input: only that field changes. */
  function SetField(f: SignupForm, name: Field, value: string): (r: SignupForm)
    ensures GetField(r, name) == value
    ensures forall other :: other != name ==> GetField(r, other) == GetField(f, other)
  {
    match name
    case FullName => f.(fullName := value)
    case Email => f.(email := value)
    case Password => f.(password := value)
    case ConfirmPassword => f.(confirmPassword := value)
  }

  /** The checks `handleSubmit` makes, in order: the two passwords must
      match, then the password must be at least six UTF-16 code units long
      (JavaScript's `length`). */
  function Validate(f: SignupForm): (err: Option<string>)
    ensures f.password != f.confirmPassword ==> err == Some(MismatchMessage)
    ensures f.password == f.confirmPassword && Utf16Length(f.password) < MinPasswordLength ==>
              err == Some(TooShortMessage)
    ensures err.None? <==> f.password == f.confirmPassword && Utf16Length(f.password) >= MinPasswordLength
  {
    if f.password != f.confirmPassword then Some(MismatchMessage)
    else if Utf16Length(f.password) < MinPasswordLength then Some(TooShortMessage)
    else None
  }

  /** The length bound is inclusive: a matching password of six code units
      passes, one of five does not; a mismatch is reported even when the
      password is also too short. */
  lemma ValidateBoundary(pw: string, other: string)
    requires pw != other
    ensures Utf16Length(pw) == 6 ==> Validate(SignupForm("", "", pw, pw)).None?
    ensures Utf16Length(pw) == 5 ==> Validate(SignupForm("", "", pw, pw)) == Some(TooShortMessage)
    ensures Validate(SignupForm("", "", pw, other)) == Some(MismatchMessage)
  {
  }

  /** Lengths are code units: three emoji are six units and pass, and any
      password of at least six characters passes whatever it holds. */
  lemma EmojiPasswordLength(pw: string)
    requires pw == "\U{1F600}\U{1F600}\U{1F600}" || |pw| >= 6
    ensures Validate(SignupForm("", "", pw, pw)).None?
  {
    if |pw| < 6 {
      var e := '\U{1F600}';
      assert pw == [e, e, e];
      assert Utf16Length([e]) == 2;
      assert Utf16Length([e, e]) == 2 + Utf16Length([e]) by { assert [e, e][1..] == [e]; }
      assert Utf16Length(pw) == 2 + Utf16Length([e, e]) by { assert pw[1..] == [e, e]; }
    }
  }

  /** The placeholder endpoint reads `firstName`, which this form does not
      have, so every account it creates is named "John Doe". */
  function PlaceholderResponse(f: SignupForm, nowMs: nat, nowIso: string): (r: AuthResponse)
    ensures r.success && r.user.name == "John Doe" && r.user.email == f.email
  {
    SimulatedResponse("", None, f.email, nowMs, nowIso)
  }

  class SignupPage {
    var formData: SignupForm
    var loading: bool
    var error: string
    var navigatedTo: Option<string>

    /** Each handler runs as one step, so no request is in flight between
        handlers. */
    predicate Valid()
      reads this
    {
      !loading
    }

    constructor ()
      ensures Valid()
      ensures formData == EmptyForm && !loading && error == "" && navigatedTo.None?
    {
      formData := EmptyForm;
      loading := false;
      error := "";
      navigatedTo := None;
    }

    /** `handleInputChange`: the named field takes the value and the error clears. */
    method HandleInputChange(name: Field, value: string)
      requires Valid()
      modifies this
      ensures Valid()
      ensures formData == SetField(old(formData), name, value) && error == ""
      ensures loading == old(loading) && navigatedTo == old(navigatedTo)
    {
      formData := SetField(formData, name, value);
      error := "";
    }

    /** `handleSubmit`, with the session service and the endpoint's answer
        as inputs. The service is called only when both checks pass; the
        result says whether it was, and the alert shown. */
    method HandleSubmit(auth: AuthService, resp: AuthResponse) returns (called: bool, alert: Option<string>)
      requires Valid()
      modifies this, auth, auth.storage
      ensures Valid()
      ensures formData == old(formData)
      ensures called <==> Validate(formData).None?
      ensures !called ==> error == Validate(formData).value && alert.None? && navigatedTo == old(navigatedTo)
      ensures !called ==> auth.isAuthenticated == old(auth.isAuthenticated) && auth.user == old(auth.user) &&
                          auth.storage.items == old(auth.storage.items)
      ensures called && resp.success ==>
                alert == Some(CreatedAlert) && navigatedTo == Some("/") && error == "" &&
                auth.isAuthenticated && auth.user == Some(resp.user) &&
                auth.storage.items == StorageAfterLogin(old(auth.storage.items), resp)
      ensures called && !resp.success ==>
                alert.None? && navigatedTo == old(navigatedTo) &&
                error == OrElse(OrElse(resp.message, "Signup failed"), SignupFailedMessage) &&
                auth.isAuthenticated == old(auth.isAuthenticated) && auth.user == old(auth.user) &&
                auth.storage.items == old(auth.storage.items)
    {
      var check := Validate(formData);
      if check.Some? {
        error := check.value;
        return false, None;
      }
      loading := true;
      error := "";
      var r := auth.Signup(resp);
      match r {
        case Ok(_) =>
          alert := Some(CreatedAlert);
          navigatedTo := Some("/");
        case Err(m) =>
          alert := None;
          error := OrElse(m, SignupFailedMessage);
      }
      loading := false;
      called := true;
    }
  }
}
