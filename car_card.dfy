/** The marketplace card for one car. The same card shows records in two
    shapes (the API's and the older mock data's), so every shown field is a
    chain of fallbacks over fields that may be missing. */
module CarCard {
  import opened Common

  const PlaceholderImage: string := "https://via.placeholder.com/400x300?text=No+Image"

  /** A car as the card receives it; any field may be missing. */
  datatype Car = Car(
    images: Option<seq<string>>, imageUrl: Option<string>, image: Option<string>,
    brand: Option<string>, model: Option<string>, name: Option<string>,
    mongoId: Option<string>, id: Option<string>,
    pricePerDay: Option<int>, price: Option<int>,
    fuelType: Option<string>, fuel: Option<string>,
    isActive: Option<bool>, available: Option<bool>)

  /** A string field that is present and truthy. */
  predicate Present(o: Option<string>) {
    o.Some? && Truthy(o.value)
  }

  /** A number field that is present and truthy (not 0). */
  predicate PresentNumber(o: Option<int>) {
    o.Some? && o.value != 0
  }

  /** `a || b` over optional strings. */
  function Or(a: Option<string>, b: Option<string>): (r: Option<string>)
    ensures Present(a) ==> r == a
    ensures !Present(a) ==> r == b
  {
    if Present(a) then a else b
  }

  /** `car.images?.[0]`: the first image, if the list exists and is non-empty. */
  function FirstImage(c: Car): Option<string> {
    match c.images
    case Some(list) => if list != [] then Some(list[0]) else None
    case None => None
  }

  /** The image: the first truthy one of `images[0]`, `imageUrl` and
      `image`, else the placeholder. */
  function ImageUrl(c: Car): (url: string)
    ensures Present(FirstImage(c)) ==> url == FirstImage(c).value
    ensures !Present(FirstImage(c)) && Present(c.imageUrl) ==> url == c.imageUrl.value
    ensures !Present(FirstImage(c)) && !Present(c.imageUrl) && Present(c.image) ==> url == c.image.value
    ensures !Present(FirstImage(c)) && !Present(c.imageUrl) && !Present(c.image) ==> url == PlaceholderImage
    ensures url != ""
  {
    var found := Or(FirstImage(c), Or(c.imageUrl, c.image));
    if Present(found) then found.value else PlaceholderImage
  }

  /** The title: "brand model" when both are truthy, else `name` (which may
      itself be missing). */
  function CarName(c: Car): (n: Option<string>)
    ensures Present(c.brand) && Present(c.model) ==> n == Some(c.brand.value + " " + c.model.value)
    ensures !(Present(c.brand) && Present(c.model)) ==> n == c.name
  {
    if Present(c.brand) && Present(c.model) then Some(c.brand.value + " " + c.model.value) else c.name
  }

  /** The id used in the links: `_id`, else `id`. */
  function CarId(c: Car): (i: Option<string>)
    ensures Present(c.mongoId) ==> i == c.mongoId
    ensures !Present(c.mongoId) ==> i == c.id
  {
    Or(c.mongoId, c.id)
  }

  /** The card's link: a missing id is written as "undefined". */
  function CarLink(c: Car): (link: string)
    ensures CarId(c).Some? ==> link == "/car/" + CarId(c).value
    ensures CarId(c).None? ==> link == "/car/undefined"
  {
    "/car/" + CarId(c).GetOr("undefined")
  }

  /** The daily price shown: `pricePerDay`, else `price`. */
  function DisplayPrice(c: Car): (p: Option<int>)
    ensures PresentNumber(c.pricePerDay) ==> p == c.pricePerDay
    ensures !PresentNumber(c.pricePerDay) ==> p == c.price
  {
    if PresentNumber(c.pricePerDay) then c.pricePerDay else c.price
  }

  /** The fuel shown: `fuelType`, else `fuel`. */
  function Fuel(c: Car): (f: Option<string>)
    ensures Present(c.fuelType) ==> f == c.fuelType
    ensures !Present(c.fuelType) ==> f == c.fuel
  {
    Or(c.fuelType, c.fuel)
  }

  /** A car is bookable unless one of the two flags is explicitly false;
      a missing flag counts as available. */
  predicate IsAvailable(c: Car) {
    c.isActive != Some(false) && c.available != Some(false)
  }

  function Badge(c: Car): (b: string)
    ensures b == "Available" <==> IsAvailable(c)
    ensures b == "Booked" <==> !IsAvailable(c)
  {
    if IsAvailable(c) then "Available" else "Booked"
  }

  /** The link label agrees with the badge: "Book Now" exactly on the
      cards badged "Available". */
  function ButtonLabel(c: Car): (b: string)
    ensures b == "Book Now" <==> Badge(c) == "Available"
    ensures b == "View Details" <==> Badge(c) == "Booked"
  {
    if IsAvailable(c) then "Book Now" else "View Details"
  }

  /** A record with both flags missing shows as available; either flag
      set to false is enough to show it as booked. */
  lemma MissingFlagsAreAvailable(c: Car)
    ensures c.isActive.None? && c.available.None? ==> Badge(c) == "Available" && ButtonLabel(c) == "Book Now"
    ensures c.isActive == Some(false) || c.available == Some(false) ==>
              Badge(c) == "Booked" && ButtonLabel(c) == "View Details"
  {
  }
}
