/** The "list your car" form: the feature checklist and custom features,
    the image URL list with its preview, the ordered validation run on
    submit, and the record sent to the create-car endpoint. */
module AddCar {
  import opened Common
  import opened Browser
  import Api

  /** The form state. A number input that is empty reads as `None`. */
  datatype CarForm = CarForm(
    brand: string, model: string, year: int, category: string, transmission: string,
    fuelType: string, seats: int, pricePerDay: Option<int>, city: string, address: string,
    state: string, pincode: string, description: string, licensePlate: string,
    mileage: Option<int>, features: seq<string>, imageUrls: seq<string>)

  /** The form on first render; the year is the current calendar year. */
  function InitialForm(currentYear: int): (f: CarForm)
    ensures f.features == [] && f.imageUrls == [] && f.pricePerDay.None?
    ensures f.year == currentYear && f.seats == 5 && f.mileage == Some(0)
  {
    CarForm("", "", currentYear, "Sedan", "Automatic", "Petrol", 5, None, "", "", "", "", "", "",
            Some(0), [], [])
  }

  // ---------------------------------------------------------------------
  // Features

  /** `handleFeatureToggle`: a present feature is removed, an absent one
      appended; no other feature's membership changes, and the remaining
      features keep their order. */
  function ToggleFeature(features: seq<string>, f: string): (r: seq<string>)
    ensures f in r <==> f !in features
    ensures forall x :: x != f ==> (x in r <==> x in features)
    ensures f in features ==> IsSubsequence(r, features)
    ensures f !in features ==> r == features + [f]
    ensures NoDuplicates(features) ==> NoDuplicates(r)
  {
    if f in features then
      FilterNoDuplicatesOf(features, f);
      FilterMembers(features, (x: string) => x != f);
      FilterIsSubsequence(features, (x: string) => x != f);
      Filter(features, (x: string) => x != f)
    else
      NoDuplicatesAppendOf(features, f);
      features + [f]
  }

  lemma FilterNoDuplicatesOf(features: seq<string>, f: string)
    ensures NoDuplicates(features) ==> NoDuplicates(Filter(features, (x: string) => x != f))
  {
    if NoDuplicates(features) {
      FilterNoDuplicates(features, (x: string) => x != f);
    }
  }

  lemma NoDuplicatesAppendOf(features: seq<string>, f: string)
    ensures NoDuplicates(features) && f !in features ==> NoDuplicates(features + [f])
  {
    if NoDuplicates(features) && f !in features {
      NoDuplicatesAppend(features, f);
    }
  }

  /** Ticking and then unticking a feature that was not selected gives the
      original list back exactly. */
  lemma ToggleAbsentTwice(features: seq<string>, f: string)
    requires f !in features
    ensures ToggleFeature(ToggleFeature(features, f), f) == features
  {
    var p := (x: string) => x != f;
    FilterConcat(features, [f], p);
    FilterAll(features, p);
    assert Filter([f], p) == [];
  }

  /** `handleAddCustomFeature`: the new feature list and the new input
      text. A blank input, or one whose trimmed text is already listed,
      changes nothing; otherwise the trimmed text is appended and the input
      cleared. */
  function AddCustomFeature(features: seq<string>, custom: string): (r: (seq<string>, string))
    ensures Trim(custom) == "" || Trim(custom) in features ==> r == (features, custom)
    ensures Trim(custom) != "" && Trim(custom) !in features ==> r == (features + [Trim(custom)], "")
    ensures NoDuplicates(features) ==> NoDuplicates(r.0)
  {
    var t := Trim(custom);
    if t != "" && t !in features then
      NoDuplicatesAppendOf(features, t);
      (features + [t], "")
    else (features, custom)
  }

  // ---------------------------------------------------------------------
  // Images

  /** `handleImageUrlAdd` on one list: the prompt's answer (`None` when it
      was dismissed) is appended trimmed, unless it is blank. */
  function AddImage(list: seq<string>, url: Option<string>): (r: seq<string>)
    ensures url.Some? && Trim(url.value) != "" ==> r == list + [Trim(url.value)]
    ensures !(url.Some? && Trim(url.value) != "") ==> r == list
  {
    match url
    case Some(u) => if Trim(u) != "" then list + [Trim(u)] else list
    case None => list
  }

  /** `filter((_, i) => i !== index)`: the entry at `index` goes, every
      other entry keeps its order; an index outside the list removes nothing. */
  function RemoveAt(list: seq<string>, index: int): (r: seq<string>)
    ensures 0 <= index < |list| ==> |r| == |list| - 1
    ensures 0 <= index < |list| ==> forall k :: 0 <= k < index ==> r[k] == list[k]
    ensures 0 <= index < |list| ==> forall k :: index <= k < |r| ==> r[k] == list[k + 1]
    ensures !(0 <= index < |list|) ==> r == list
  {
    if 0 <= index < |list| then list[..index] + list[index + 1..] else list
  }

  // ---------------------------------------------------------------------
  // Submit

  const NotLoggedInMessage: string := "You must be logged in to list a car. Redirecting to login..."
  const BrandModelMessage: string := "Brand and model are required"
  const PriceMessage: string := "Please enter a valid price per day"
  const PlateMessage: string := "License plate is required"
  const CityMessage: string := "City is required"
  const ImageMessage: string := "Please add at least one image"
  const ListedMessage: string := "Car listed successfully! Redirecting..."
  const ListFailedMessage: string := "Failed to list car. Please try again."
  const LoginFirstMessage: string := "Please login to list your car"

  predicate ValidPrice(form: CarForm) {
    form.pricePerDay.Some? && form.pricePerDay.value > 0
  }

  /** Every check `handleSubmit` makes before calling the endpoint. */
  predicate Submittable(form: CarForm, token: Option<string>) {
    token.Some? && form.brand != "" && form.model != "" && ValidPrice(form) &&
    form.licensePlate != "" && form.city != "" && |form.imageUrls| > 0
  }

  /** The message of the first failing check, in the order the handler
      makes them: token, brand and model, price, plate, city, images. */
  function SubmitError(form: CarForm, token: Option<string>): (r: Option<string>)
    ensures r.None? <==> Submittable(form, token)
    ensures token.None? ==> r == Some(NotLoggedInMessage)
    ensures token.Some? && (form.brand == "" || form.model == "") ==> r == Some(BrandModelMessage)
    ensures token.Some? && form.brand != "" && form.model != "" && !ValidPrice(form) ==>
              r == Some(PriceMessage)
    ensures (token.Some? && form.brand != "" && form.model != "" && ValidPrice(form) &&
             form.licensePlate == "") ==> r == Some(PlateMessage)
    ensures (token.Some? && form.brand != "" && form.model != "" && ValidPrice(form) &&
             form.licensePlate != "" && form.city == "") ==> r == Some(CityMessage)
    ensures (token.Some? && form.brand != "" && form.model != "" && ValidPrice(form) &&
             form.licensePlate != "" && form.city != "" && form.imageUrls == []) ==> r == Some(ImageMessage)
  {
    if token.None? then Some(NotLoggedInMessage)
    else if form.brand == "" || form.model == "" then Some(BrandModelMessage)
    else if !ValidPrice(form) then Some(PriceMessage)
    else if form.licensePlate == "" then Some(PlateMessage)
    else if form.city == "" then Some(CityMessage)
    else if |form.imageUrls| == 0 then Some(ImageMessage)
    else None
  }

  datatype Location = Location(city: string, address: string, state: string, pincode: string)

  /** The record posted to the create-car endpoint. */
  datatype CarData = CarData(
    brand: string, model: string, year: int, category: string, transmission: string,
    fuelType: string, seats: int, pricePerDay: int, location: Location, description: string,
    licensePlate: string, mileage: int, features: seq<string>, images: seq<string>, isActive: bool)

  /** `carData`: the form's fields, with the plate upper-cased, the
      location grouped, a missing mileage sent as 0 and the car active. */
  function BuildCarData(form: CarForm): (d: CarData)
    requires form.pricePerDay.Some?
    ensures d.licensePlate == ToUpper(form.licensePlate) && NoLowerCase(d.licensePlate)
    ensures d.isActive
    ensures d.mileage == NumOrZero(form.mileage)
    ensures d.pricePerDay == form.pricePerDay.value
    ensures d.images == form.imageUrls && d.features == form.features
    ensures d.location == Location(form.city, form.address, form.state, form.pincode)
    ensures d.brand == form.brand && d.model == form.model && d.year == form.year && d.seats == form.seats
  {
    CarData(form.brand, form.model, form.year, form.category, form.transmission, form.fuelType,
            form.seats, form.pricePerDay.value, Location(form.city, form.address, form.state, form.pincode),
            form.description, ToUpper(form.licensePlate), NumOrZero(form.mileage), form.features,
            form.imageUrls, true)
  }

  // ---------------------------------------------------------------------
  // The page

  class AddCarPage {
    var form: CarForm
    var imagePreview: seq<string>
    var customFeature: string
    var loading: bool
    var error: string
    var success: string
    var navigatedTo: Option<string>

    /** The preview list mirrors the form's image list, and no feature is
        listed twice. */
    predicate Valid()
      reads this
    {
      imagePreview == form.imageUrls && NoDuplicates(form.features)
    }

    /** First render, followed by the mount check: without a token or a
        stored user the page shows a message and goes to the login page. */
    constructor (currentYear: int, items: map<string, string>)
      ensures Valid()
      ensures form == InitialForm(currentYear) && customFeature == "" && !loading && success == ""
      ensures Api.StoredToken(items).Some? && Api.HasValue(items, Api.UserKey) ==>
                error == "" && navigatedTo.None?
      ensures !(Api.StoredToken(items).Some? && Api.HasValue(items, Api.UserKey)) ==>
                error == LoginFirstMessage && navigatedTo == Some("/login")
    {
      form := InitialForm(currentYear);
      imagePreview := [];
      customFeature := "";
      loading := false;
      success := "";
      if Api.StoredToken(items).None? || !Api.HasValue(items, Api.UserKey) {
        error := LoginFirstMessage;
        navigatedTo := Some("/login");
      } else {
        error := "";
        navigatedTo := None;
      }
    }

    method HandleFeatureToggle(f: string)
      requires Valid()
      modifies this
      ensures Valid()
      ensures form == old(form).(features := ToggleFeature(old(form).features, f))
      ensures imagePreview == old(imagePreview) && customFeature == old(customFeature)
      ensures loading == old(loading) && error == old(error) && success == old(success)
      ensures navigatedTo == old(navigatedTo)
    {
      form := form.(features := ToggleFeature(form.features, f));
    }

    method SetCustomFeature(text: string)
      requires Valid()
      modifies this
      ensures Valid()
      ensures customFeature == text
      ensures form == old(form) && imagePreview == old(imagePreview)
      ensures loading == old(loading) && error == old(error) && success == old(success)
      ensures navigatedTo == old(navigatedTo)
    {
      customFeature := text;
    }

    method HandleAddCustomFeature()
      requires Valid()
      modifies this
      ensures Valid()
      ensures var r := AddCustomFeature(old(form).features, old(customFeature));
              form == old(form).(features := r.0) && customFeature == r.1
      ensures imagePreview == old(imagePreview)
      ensures loading == old(loading) && error == old(error) && success == old(success)
      ensures navigatedTo == old(navigatedTo)
    {
      var r := AddCustomFeature(form.features, customFeature);
      form := form.(features := r.0);
      customFeature := r.1;
    }

    /** `handleImageUrlAdd`, with the prompt's answer as input: both lists
        get the same entry. */
    method HandleImageUrlAdd(url: Option<string>)
      requires Valid()
      modifies this
      ensures Valid()
      ensures form == old(form).(imageUrls := AddImage(old(form).imageUrls, url))
      ensures imagePreview == AddImage(old(imagePreview), url)
      ensures customFeature == old(customFeature)
      ensures loading == old(loading) && error == old(error) && success == old(success)
      ensures navigatedTo == old(navigatedTo)
    {
      var added := AddImage(imagePreview, url);
      form := form.(imageUrls := added);
      imagePreview := added;
    }

    /** `handleImageUrlRemove`: both lists lose the same entry. */
    method HandleImageUrlRemove(index: int)
      requires Valid()
      modifies this
      ensures Valid()
      ensures form == old(form).(imageUrls := RemoveAt(old(form).imageUrls, index))
      ensures imagePreview == RemoveAt(old(imagePreview), index)
      ensures customFeature == old(customFeature)
      ensures loading == old(loading) && error == old(error) && success == old(success)
      ensures navigatedTo == old(navigatedTo)
    {
      form := form.(imageUrls := RemoveAt(form.imageUrls, index));
      imagePreview := RemoveAt(imagePreview, index);
    }

    /** `handleSubmit`, with the stored items and the endpoint's outcome as
        inputs. Returns the record sent, if the checks let it be sent. */
    method HandleSubmit(items: map<string, string>, createResult: Result<()>) returns (sent: Option<CarData>)
      requires Valid()
      modifies this
      ensures Valid()
      ensures form == old(form) && imagePreview == old(imagePreview) && customFeature == old(customFeature)
      ensures !loading
      ensures sent.Some? <==> Submittable(form, Api.StoredToken(items))
      ensures sent.Some? ==> sent.value == BuildCarData(form)
      ensures sent.None? ==> error == SubmitError(form, Api.StoredToken(items)).value && success == ""
      ensures Api.StoredToken(items).None? ==> navigatedTo == Some("/login")
      ensures Api.StoredToken(items).Some? && sent.None? ==> navigatedTo == old(navigatedTo)
      ensures sent.Some? && createResult.Ok? ==>
                success == ListedMessage && error == "" && navigatedTo == Some("/my-cars")
      ensures sent.Some? && createResult.Err? ==>
                success == "" && error == OrElse(createResult.message, ListFailedMessage) &&
                navigatedTo == old(navigatedTo)
    {
      error := "";
      success := "";
      var token := Api.StoredToken(items);
      var failure := SubmitError(form, token);
      if failure.Some? {
        error := failure.value;
        if token.None? {
          navigatedTo := Some("/login");
        }
        sent := None;
        loading := false;
        return;
      }
      loading := true;
      var data := BuildCarData(form);
      sent := Some(data);
      match createResult {
        case Ok(_) =>
          success := ListedMessage;
          navigatedTo := Some("/my-cars");
        case Err(m) =>
          error := OrElse(m, ListFailedMessage);
      }
      loading := false;
    }
  }
}
