# GetSetRide front-end rules, modelled in Dafny

GetSetRide is a car-rental web front-end. Renters browse a marketplace,
book a car for a date range and track their bookings. Hosts list cars and
manage their fleet. This project models the deterministic rules inside the
pages and services:

- the session service and its two storage keys;
- the request helper's headers and its handling of a 401;
- the rental-cost summary with its flat ₹50 fee;
- classifying bookings into tabs;
- the host's fleet list operations and totals;
- the listing form with its ordered validation;
- the five-step host wizard;
- the marketplace filter record and pagination;
- the car card's field fallbacks;
- the profile initials and form;
- the sign-up checks;
- the chat widget's send state machine.

Some of these need values from outside:

- **The clock** is a parameter. Dates are integer milliseconds.
- **Browser storage** is a class over a `map<string, string>`
  (`Browser.LocalStorage`). Pure rules take the map itself.
- **Network calls** (fetch, the car/booking/chat services, the create and
  update endpoints) are replaced by their outcome. The outcome is a
  parameter: a `Result` holding the parsed response or the message the call
  threw.
- **`alert`, `confirm` and `prompt`** become returned strings or boolean
  and optional inputs.
- **Each event handler** is one atomic step. The one exception is the chat
  send, which is split at its `await` into `BeginSend` and `FinishSend`, so
  that its in-flight guard means something.

Pages whose state the source updates step by step are classes:

- `Api` and `Auth` hold the request helper and the session service.
- `CarDetailPage`, `MyBookingsPage`, `MyCarsPage`, `AddCarPage`,
  `HostWizard`, `MarketplacePage`, `ProfilePage`, `SignupPage` and
  `ChatWidget` are the pages and the chat widget.
- Their methods state the whole new state.

The rules the handlers apply are functions. The lemmas are about those
functions.

Two modules are shared by the rest:

- `Common` holds JavaScript's `||` fallbacks, `filter`, `trim`,
  `toUpperCase`, `includes` and `Math.ceil` of a division.
- `UserJson` writes the stored user record exactly as `JSON.stringify`
  does and reads it back. It proves that the session service reads back
  what it wrote.

## Model

| member | source | states |
|---|---|---|
| Common.CeilDiv | src/pages/CarDetailPage.jsx:81 | `Math.ceil(a / b)` for a positive divisor: the result `q` satisfies `(q-1)*b < a <= q*b` |
| Common.CeilDivUnique | src/pages/MyBookingsPage.jsx:98 | any `q` bracketing `a` that way is the ceiling, so two ways of computing a day count agree |
| Common.Trim | src/pages/AddCarPage.jsx:87 | `trim()` drops exactly the leading and trailing ECMAScript white space: the result is a slice with only white space before and after it, neither of its ends is white space, and it is empty iff the text is all white space |
| Common.TrimIdempotent | src/pages/AddCarPage.jsx:87-90 | trimming twice is trimming once, so the stored custom feature trims to itself |
| Common.Utf16Length | src/pages/SignupPage.jsx:37 | JavaScript's `length`: between one and two units per character, and equal to the character count iff every character is in the Basic Multilingual Plane |
| Common.ToUpper | src/pages/AddCarPage.jsx:178 | `toUpperCase()` keeps the length and upper-cases every letter in place |
| Common.FilterSplit | src/pages/MyCarsPage.jsx:110-112 | filtering by a predicate and by its negation splits a list: each element goes to one side, as often as it occurs |
| Common.FilterIsSubsequence | src/pages/MyBookingsPage.jsx:103-106 | `filter` keeps the list order |
| Common.FilterMembers | src/pages/MyBookingsPage.jsx:103-106 | `filter` keeps an element exactly when it is in the list and passes the test |
| Common.FilterNoDuplicates | src/pages/AddCarPage.jsx:80-81 | removing elements with `filter` cannot create a duplicate |
| UserJson.ParseStringify | src/services/auth.js:61-69 | parsing the JSON text written for a user gives back that user |
| UserJson.EscapeCharParse | src/services/auth.js:22 | each character `JSON.stringify` escapes reads back as itself |
| UserJson.EscapeParse | src/services/auth.js:22 | an escaped string body reads back up to its closing quote |
| UserJson.NatParse | src/services/auth.js:22 | the decimal form of the numeric id reads back as the same number |
| Browser.LocalStorage.SetItem | src/services/auth.js:21-22 | `setItem` writes one key and changes no other |
| Browser.LocalStorage.RemoveItem | src/services/auth.js:56-57 | `removeItem` deletes one key and changes no other |
| Api.ApiUrl | src/services/api.js:7-9 | the configured URL if set, else `/api` in development, else the production URL |
| Api.StoredToken | src/services/api.js:14 | a token exists iff `authToken` or `token` holds text; `authToken` is preferred |
| Api.AuthHeaders | src/services/api.js:12-19 | Content-Type is always JSON; `Authorization: Bearer <token>` is present iff a token exists; no other header |
| Api.BuildRequest | src/services/api.js:41-50 | URL is base + endpoint; the caller's options are kept; the headers are the defaults overridden by the caller's, both ways |
| Api.ErrorMessage | src/services/api.js:34 | the thrown text is the body's message, else "HTTP error! status: N"; it is never empty |
| Api.StorageAfter | src/services/api.js:22-35 | a 401 whose body parses as JSON removes exactly `authToken`, `token` and `user`; any other response, and a body that is not JSON, leaves storage as it was |
| Api.HandleResponse | src/services/api.js:22-38 | a body that is not JSON throws the parse error first, with storage kept and no redirect; ok: the data unchanged; not ok: throw with the message; a 401 also clears the session keys and redirects to login |
| Api.ApiRequest | src/services/api.js:41-58 | the request is built from storage as it was before the call; a thrown fetch, or a body that is not JSON, is rethrown with storage untouched; a parsed response is handled as above |
| Api.UnauthorizedDropsBearer | src/services/api.js:14-33 | after a 401 with a JSON body no token is left, so the next request has no `Authorization` header |
| Auth.SimulatedResponse | src/services/auth.js:80-97 | the placeholder endpoint always succeeds with id 1, "first last" or "John Doe", the given email, and a time-stamped token |
| Auth.StorageAfterLogin | src/services/auth.js:18-23 | a successful session writes `authToken` and `user` (the JSON text) and changes no other key |
| Auth.AuthService.constructor | src/services/auth.js:4-7 | a new service is signed out with no user |
| Auth.AuthService.StartSession | src/services/auth.js:18-23 | the success branch sets both fields and writes both keys |
| Auth.AuthService.Login | src/services/auth.js:10-30 | success: session started and user returned; failure: throws the response's message (else "Login failed") and fields and storage are unchanged |
| Auth.AuthService.Signup | src/services/auth.js:33-50 | as login, with the fallback "Signup failed" |
| Auth.AuthService.Logout | src/services/auth.js:53-58 | both fields cleared, `authToken` and `user` removed, every other key kept |
| Auth.AuthService.CheckAuth | src/services/auth.js:61-72 | true iff both keys hold text, and then the fields are restored from storage; false leaves the fields untouched; user text that `UserJson.Parse` rejects throws with the flag already set |
| Auth.AuthService.GetCurrentUser | src/services/auth.js:75-77 | the cached field |
| Auth.ReloadAfterLogin | src/services/auth.js:61-69 | a fresh service over the storage a login wrote restores exactly the user that logged in |
| Auth.CheckAuthAfterUnauthorized | src/services/api.js:27-33 | after a 401 with a JSON body, `checkAuth` reports no session |
| CarDetail.CalculateTotal | src/pages/CarDetailPage.jsx:75-84 | a missing date, or a span that is not positive, gives 0 days and 0 cost; otherwise days is the span rounded up to whole days (at least 1), and the total is days × price |
| CarDetail.TotalNonNegative | src/pages/CarDetailPage.jsx:83 | a non-negative price never gives a negative total |
| CarDetail.TwentyFiveHoursIsTwoDays | src/pages/CarDetailPage.jsx:81 | a 25-hour span is billed as 2 days |
| CarDetail.OneDayIsOneDay | src/pages/CarDetailPage.jsx:81 | a span of exactly 24 hours is 1 day |
| CarDetail.GrandTotal | src/pages/CarDetailPage.jsx:376-380 | the dialog total exceeds the rental cost by the flat fee of 50, whatever the days |
| CarDetail.CarDetailPage.constructor | src/pages/CarDetailPage.jsx:8-12 | both dates empty and the dialog closed |
| CarDetail.CarDetailPage.SetFromDate | src/pages/CarDetailPage.jsx:279 | only the from-date changes |
| CarDetail.CarDetailPage.SetToDate | src/pages/CarDetailPage.jsx:290 | only the to-date changes |
| CarDetail.CarDetailPage.CheckAvailability | src/pages/CarDetailPage.jsx:86-96 | a missing date alerts and leaves the dialog as it was; both dates set opens it |
| CarDetail.CarDetailPage.ClickBookNow | src/pages/CarDetailPage.jsx:322-329 | the button opens the dialog only when both dates are set |
| CarDetail.CarDetailPage.CloseModal | src/pages/CarDetailPage.jsx:348 | closing or cancelling changes only the dialog flag |
| CarDetail.CarDetailPage.ConfirmBooking | src/pages/CarDetailPage.jsx:98-102 | alerts, closes the dialog, goes to the marketplace; no booking request |
| CarDetail.OpenThenCancel | src/pages/CarDetailPage.jsx:386 | opening and cancelling the dialog keeps the dates and the summary |
| MyBookings.GetBookingCategory | src/pages/MyBookingsPage.jsx:59-70 | cancelled iff the status is cancelled; completed or ended means past; upcoming iff not cancelled, not completed, not ended, and started later or confirmed/active |
| MyBookings.PendingInProgressIsPast | src/pages/MyBookingsPage.jsx:69 | a pending booking already under way falls through to past |
| MyBookings.CalculateDays | src/pages/MyBookingsPage.jsx:94-100 | non-negative; the absolute span rounded up to whole days |
| MyBookings.CalculateDaysSymmetric | src/pages/MyBookingsPage.jsx:97 | swapping the two dates gives the same count |
| MyBookings.DaysAgreeWithCarDetail | src/pages/MyBookingsPage.jsx:94-100 | for a forward span the list page counts the days the detail page bills |
| MyBookings.FilteredBookingsStep | src/pages/MyBookingsPage.jsx:103-106 | the tab list is built booking by booking in list order |
| MyBookings.ClassifiedPartition | src/pages/MyBookingsPage.jsx:103-106 | for any classification into the three categories, the three tab filters together hold every booking exactly as often as the list does |
| MyBookings.TabsPartition | src/pages/MyBookingsPage.jsx:103-106 | the three tabs together hold every booking exactly as often as the list does |
| MyBookings.TabsOrderAndMembership | src/pages/MyBookingsPage.jsx:103-106 | each tab keeps list order and shows a booking iff it is of that tab's category |
| MyBookings.ActionsConsistent | src/pages/MyBookingsPage.jsx:295-303 | no booking offers both Cancel and Book Again; Book Again only on past bookings; Cancel never on cancelled ones |
| MyBookings.MyBookingsPage.constructor | src/pages/MyBookingsPage.jsx:9-17 | empty list, loading, upcoming tab, zero stats |
| MyBookings.MyBookingsPage.SelectTab | src/pages/MyBookingsPage.jsx:169-187 | only the tab changes |
| MyBookings.MyBookingsPage.Load | src/pages/MyBookingsPage.jsx:19-43 | no session: go to login; else bookings (else []) then stats (else the old ones); a failure sets the error message; loading ends |
| MyBookings.MyBookingsPage.HandleCancelBooking | src/pages/MyBookingsPage.jsx:45-56 | nothing without confirmation; then cancel and reload; a failure alerts with its message and keeps the list |
| MyCars.SetStatus | src/pages/MyCarsPage.jsx:87-91 | same length; the cars with the id get the new status; every other car is unchanged |
| MyCars.ToggleFlipsOne | src/pages/MyCarsPage.jsx:82-96 | with unique ids, toggling a car flips only that car, and toggling it back restores the list |
| MyCars.DeleteCar | src/pages/MyCarsPage.jsx:102 | a car stays iff its id differs, and the order is kept |
| MyCars.DeleteCount | src/pages/MyCarsPage.jsx:102 | the number removed is exactly the number of cars with that id |
| MyCars.FilteredCars | src/pages/MyCarsPage.jsx:110-112 | all: the whole list; active: exactly the active cars; inactive: exactly the others; each tab keeps the list order |
| MyCars.TabCountsAddUp | src/pages/MyCarsPage.jsx:223-241 | the active and inactive counts add up to the total, and the two tabs split the list |
| MyCars.ActiveListings | src/pages/MyCarsPage.jsx:119 | at most the number of cars, and equal to it iff every car is active |
| MyCars.SumSplit | src/pages/MyCarsPage.jsx:114-115 | a per-car sum splits over a filter and its complement |
| MyCars.TotalRevenue | src/pages/MyCarsPage.jsx:114 | the stats figure when non-zero, else the sum of the cars' earnings, a missing figure counting as 0 |
| MyCars.TotalBookings | src/pages/MyCarsPage.jsx:115 | the same rule for booking counts |
| MyCars.DeleteLowersRevenue | src/pages/MyCarsPage.jsx:102-114 | with no stats figure, deleting a car lowers the revenue shown by exactly its earnings |
| MyCars.NormaliseStats | src/pages/MyCarsPage.jsx:51-74 | each figure from `stats` (else the top level) defaults to 0; a failed request resets all four to 0 |
| MyCars.MyCarsPage.constructor | src/pages/MyCarsPage.jsx:9-19 | empty list, loading, active tab, zero stats |
| MyCars.MyCarsPage.FetchCars | src/pages/MyCarsPage.jsx:31-49 | success: the response's cars, error cleared; failure: empty list and the thrown message (else a default); loading ends |
| MyCars.MyCarsPage.FetchStats | src/pages/MyCarsPage.jsx:51-74 | only the stats change, to the normalised figures |
| MyCars.MyCarsPage.HandleToggleStatus | src/pages/MyCarsPage.jsx:82-96 | after the call succeeds the cars with the id get the opposite of the status shown; on failure only the error is set |
| MyCars.MyCarsPage.HandleDeleteCar | src/pages/MyCarsPage.jsx:98-108 | nothing without confirmation; after the call succeeds the cars with the id go; on failure only the error is set |
| MyCars.MyCarsPage.SelectTab | src/pages/MyCarsPage.jsx:11 | only the tab changes |
| AddCar.InitialForm | src/pages/AddCarPage.jsx:14-32 | no features, no images, empty price, 5 seats, the current year, mileage 0 |
| AddCar.ToggleFeature | src/pages/AddCarPage.jsx:77-84 | the feature's membership flips; no other feature's changes; a removal keeps the others in order; an absent one is appended; no duplicate is created |
| AddCar.ToggleAbsentTwice | src/pages/AddCarPage.jsx:80-82 | ticking and unticking an unselected feature restores the list exactly |
| AddCar.AddCustomFeature | src/pages/AddCarPage.jsx:86-94 | blank or already-listed trimmed text changes nothing; otherwise the trimmed text is appended and the input cleared; no duplicate is created |
| AddCar.AddImage | src/pages/AddCarPage.jsx:96-106 | a dismissed or blank answer changes nothing; otherwise the trimmed URL is appended |
| AddCar.RemoveAt | src/pages/AddCarPage.jsx:108-114 | the entry at the index goes, the others keep their order; an index outside the list removes nothing |
| AddCar.SubmitError | src/pages/AddCarPage.jsx:121-157 | the first failing check, in the order token, brand/model, price > 0, plate, city, at least one image, gives its message; none fails iff all hold |
| AddCar.BuildCarData | src/pages/AddCarPage.jsx:162-183 | the form's fields with the plate upper-cased, the location grouped, a missing mileage sent as 0, and the car active |
| AddCar.AddCarPage.constructor | src/pages/AddCarPage.jsx:9-67 | the initial form; without a token or stored user, the login message and a redirect |
| AddCar.AddCarPage.HandleFeatureToggle | src/pages/AddCarPage.jsx:77-84 | only the feature list changes, and it stays duplicate-free |
| AddCar.AddCarPage.SetCustomFeature | src/pages/AddCarPage.jsx:34 | only the custom-feature input changes |
| AddCar.AddCarPage.HandleAddCustomFeature | src/pages/AddCarPage.jsx:86-94 | the feature list and the input, as `AddCustomFeature` says |
| AddCar.AddCarPage.HandleImageUrlAdd | src/pages/AddCarPage.jsx:96-106 | both image lists get the same entry, so they stay equal |
| AddCar.AddCarPage.HandleImageUrlRemove | src/pages/AddCarPage.jsx:108-114 | both image lists lose the same entry, so they stay equal |
| AddCar.AddCarPage.HandleSubmit | src/pages/AddCarPage.jsx:116-206 | the record is sent iff every check passes, and it is the built record; otherwise the first message is shown; no token redirects to login; success shows the message and goes to my-cars; a failure shows its message (else a default); loading ends |
| BecomeHost.Next | src/pages/BecomeHostPage.jsx:55-59 | one step forward below step 5, no change at 5, and the step stays in 1..5 |
| BecomeHost.Prev | src/pages/BecomeHostPage.jsx:61-65 | one step back above step 1, no change at 1, and the step stays in 1..5 |
| BecomeHost.NextThenPrev | src/pages/BecomeHostPage.jsx:55-65 | below step 5, forward then back returns to the same step |
| BecomeHost.PrevThenNext | src/pages/BecomeHostPage.jsx:55-65 | above step 1, back then forward returns to the same step |
| BecomeHost.Submit | src/pages/BecomeHostPage.jsx:67-76 | completes iff on step 5, where the step stays; otherwise advances like Next |
| BecomeHost.RunStaysInRange | src/pages/BecomeHostPage.jsx:55-76 | from any step in 1..5, any run of Back, Next and Submit clicks stays in 1..5 |
| BecomeHost.SubmitWalk | src/pages/BecomeHostPage.jsx:67-76 | four submits from step 1 reach step 5; only a submit on step 5 completes |
| BecomeHost.CompletedAreBefore | src/pages/BecomeHostPage.jsx:659-666 | a step shows completed iff it is before the current one |
| BecomeHost.ProgressPercent | src/pages/BecomeHostPage.jsx:653 | the filled share is (step - 1) / 4 of the line, between 0 and 100 |
| BecomeHost.ProgressGrows | src/pages/BecomeHostPage.jsx:653 | 0 on step 1, 100 on step 5, growing with each step |
| BecomeHost.SubmitLabel | src/pages/BecomeHostPage.jsx:706 | "Submit Application" on step 5, else "Next Step" |
| BecomeHost.BackDisabledIsNoOp | src/pages/BecomeHostPage.jsx:698 | Back is disabled exactly where it would do nothing |
| BecomeHost.HostWizard.constructor | src/pages/BecomeHostPage.jsx:5-37 | step 1 and the initial fields |
| BecomeHost.HostWizard.HandleInputChange | src/pages/BecomeHostPage.jsx:47-53 | only the named field changes |
| BecomeHost.HostWizard.NextStep | src/pages/BecomeHostPage.jsx:55-59 | the step moves as Next says |
| BecomeHost.HostWizard.PrevStep | src/pages/BecomeHostPage.jsx:61-65 | the step moves as Prev says |
| BecomeHost.HostWizard.HandleSubmit | src/pages/BecomeHostPage.jsx:67-76 | on step 5 the completion alert and no move; otherwise the next step |
| Marketplace.FilterChange | src/pages/MarketplacePage_new.jsx:78-84 | the key takes the value, the page becomes 1 (even when the key is `page`), every other key is unchanged |
| Marketplace.PageChange | src/pages/MarketplacePage_new.jsx:86-92 | only the page changes |
| Marketplace.ClearFilters | src/pages/MarketplacePage_new.jsx:94-107 | the initial record, whatever the current one |
| Marketplace.ClearIdempotent | src/pages/MarketplacePage_new.jsx:94-107 | clearing twice is clearing once; a change after clearing differs from the initial record only in that key |
| Marketplace.ApplyUrlParams | src/pages/MarketplacePage_new.jsx:32-47 | a truthy URL city replaces the city filter; otherwise the record is unchanged |
| Marketplace.NumOr | src/pages/MarketplacePage_new.jsx:60-63 | `n || d` on a number that may be missing |
| Marketplace.PaginationOf | src/pages/MarketplacePage_new.jsx:59-64 | total and page count default to 0, the current page to 1 |
| Marketplace.EmptyResponseIsInitial | src/pages/MarketplacePage_new.jsx:59-64 | an empty response gives the pagination of first render |
| Marketplace.PageButtons | src/pages/MarketplacePage_new.jsx:333-346 | the buttons are numbered 1 up to min(5, totalPages), all within the page count |
| Marketplace.ArrowsStayInRange | src/pages/MarketplacePage_new.jsx:327-352 | prev is disabled exactly at the first page and next exactly at the last; an enabled arrow leads to a page in range |
| Marketplace.NoButtonBeyondFive | src/pages/MarketplacePage_new.jsx:333-346 | beyond page 5, no numbered button is the current page |
| Marketplace.MarketplacePage.constructor | src/pages/MarketplacePage_new.jsx:10-29 | no cars, loading, no error, the initial record and pagination |
| Marketplace.MarketplacePage.HandleFilterChange | src/pages/MarketplacePage_new.jsx:78-84 | only the filters change, as FilterChange says |
| Marketplace.MarketplacePage.HandlePageChange | src/pages/MarketplacePage_new.jsx:86-92 | only the filters change, as PageChange says |
| Marketplace.MarketplacePage.ClearAll | src/pages/MarketplacePage_new.jsx:94-107 | the filters become the initial record |
| Marketplace.MarketplacePage.InitFromUrl | src/pages/MarketplacePage_new.jsx:32-47 | only the filters change, as ApplyUrlParams says |
| Marketplace.MarketplacePage.FetchCars | src/pages/MarketplacePage_new.jsx:54-71 | success: the cars (else none) and the normalised pagination; failure: cars and pagination kept and the message (else a default) set; loading ends |
| CarCard.Or | src/components/marketplace/CarCard.jsx:6-8 | `a || b` over optional strings |
| CarCard.ImageUrl | src/components/marketplace/CarCard.jsx:6 | the first truthy one of `images[0]`, `imageUrl` and `image`, else the placeholder; never empty |
| CarCard.CarName | src/components/marketplace/CarCard.jsx:7 | "brand model" when both are truthy, else `name` |
| CarCard.CarId | src/components/marketplace/CarCard.jsx:8 | `_id`, else `id` |
| CarCard.CarLink | src/components/marketplace/CarCard.jsx:8-12 | the link is `/car/` followed by the id, or `/car/undefined` when neither id is present |
| CarCard.DisplayPrice | src/components/marketplace/CarCard.jsx:28 | `pricePerDay`, else `price` |
| CarCard.Fuel | src/components/marketplace/CarCard.jsx:37 | `fuelType`, else `fuel` |
| CarCard.Badge | src/components/marketplace/CarCard.jsx:51-56 | "Available" iff neither flag is false, else "Booked" |
| CarCard.ButtonLabel | src/components/marketplace/CarCard.jsx:60-66 | "Book Now" exactly on the cards badged "Available", "View Details" on those badged "Booked" |
| CarCard.MissingFlagsAreAvailable | src/components/marketplace/CarCard.jsx:51 | missing flags show as available; either flag false shows as booked |
| Profile.Split | src/pages/ProfilePage.jsx:99 | `split(' ')` gives at least one piece, none containing a space |
| Profile.JoinSplit | src/pages/ProfilePage.jsx:99 | joining the pieces with single spaces gives the text back |
| Profile.WordStarts | src/pages/ProfilePage.jsx:98-101 | an independent definition of the word-initial characters: a character that is not a space and starts the text or follows a space; never more of them than characters |
| Profile.WordStartsChars | src/pages/ProfilePage.jsx:98-101 | every word start is a character of the name and none is a space |
| Profile.FirstCharsAreWordStarts | src/pages/ProfilePage.jsx:98-101 | the first characters of the split pieces are exactly the characters that start a word; empty pieces add nothing |
| Profile.Take2 | src/pages/ProfilePage.jsx:103 | `substring(0, 2)`: a prefix of at most 2 characters |
| Profile.GetInitials | src/pages/ProfilePage.jsx:96-104 | "U" for a missing or empty name; otherwise the first two word starts, upper-cased; at most 2 characters, none lower-case |
| Profile.WordStartsConcat | src/pages/ProfilePage.jsx:98-101 | the word starts of joined text are those of each part, the second continuing from the end of the first |
| Profile.NoStartInsideWord | src/pages/ProfilePage.jsx:98-101 | no word starts inside a word |
| Profile.NoStartInSpaces | src/pages/ProfilePage.jsx:98-101 | spaces alone start no word |
| Profile.BlankNameHasNoInitials | src/pages/ProfilePage.jsx:97-103 | a name of spaces only is truthy, so it gets no "U", and its initials are empty |
| Profile.TwoWordInitials | src/pages/ProfilePage.jsx:98-103 | "first last" gives the two first letters, upper-cased |
| Profile.FormFromUser | src/pages/ProfilePage.jsx:36-40 | name and email copied; a missing phone becomes "" |
| Profile.SetField | src/pages/ProfilePage.jsx:55-60 | only the named field changes |
| Profile.LoadAsWritten | src/pages/ProfilePage.jsx:18-53 | as written: without a session, go to login; with one, the load error and no user, whatever the server returns |
| Profile.LoadAsWrittenLosesUser | src/pages/ProfilePage.jsx:28-46 | a signed-in user whose profile the server returns gets no user as written, and gets it from the corrected load |
| Profile.Load | src/pages/ProfilePage.jsx:18-53 | corrected: success fills the user and the form; a refusal goes to login; a failed request shows the load error |
| Profile.SubmitAsWritten | src/pages/ProfilePage.jsx:62-94 | as written: every save ends in the generic error with the state unchanged |
| Profile.SubmitAsWrittenAlwaysFails | src/pages/ProfilePage.jsx:72-90 | a save the server accepts is reported as an error as written, and as a success when corrected |
| Profile.Submit | src/pages/ProfilePage.jsx:79-90 | corrected: success ends editing with the returned user; a refusal shows the server's text (else a default); a failure shows the generic error |
| Profile.ProfilePage.constructor | src/pages/ProfilePage.jsx:8-16 | no user, loading, not editing, empty form, no message |
| Profile.ProfilePage.LoadProfile | src/pages/ProfilePage.jsx:18-53 | the corrected load's outcome, each field written only on the path that sets it: user and form on success, the error message on failure, `/login` on a refusal; loading ends unless the page went to login |
| Profile.ProfilePage.StartEditing | src/pages/ProfilePage.jsx:167 | only the editing flag is set |
| Profile.ProfilePage.HandleInputChange | src/pages/ProfilePage.jsx:55-60 | only the named form field changes |
| Profile.ProfilePage.CancelEdit | src/pages/ProfilePage.jsx:289-296 | editing ends, the form is refilled from the user, the message is cleared |
| Profile.ProfilePage.HandleSubmit | src/pages/ProfilePage.jsx:62-94 | the state is the corrected save's outcome; loading ends; the form is kept |
| Signup.SetField | src/pages/SignupPage.jsx:19-24 | only the named field changes |
| Signup.Validate | src/pages/SignupPage.jsx:31-40 | a mismatch is reported before the length; no error iff the passwords match and are at least 6 UTF-16 code units long |
| Signup.ValidateBoundary | src/pages/SignupPage.jsx:32-40 | 6 matching code units pass, 5 fail as too short; a mismatch wins over shortness |
| Signup.EmojiPasswordLength | src/pages/SignupPage.jsx:37 | three emoji are six code units and pass; so does any matching password of six or more characters |
| Signup.PlaceholderResponse | src/pages/SignupPage.jsx:7-46 | the form has no first name, so the placeholder endpoint names every account "John Doe" |
| Signup.SignupPage.constructor | src/pages/SignupPage.jsx:7-17 | empty form, not loading, no error |
| Signup.SignupPage.HandleInputChange | src/pages/SignupPage.jsx:19-26 | only the named field changes, and the error clears |
| Signup.SignupPage.HandleSubmit | src/pages/SignupPage.jsx:28-54 | the service is called iff both checks pass; success alerts and goes home; failure shows the message; not loading afterwards |
| Chatbot.Greeting | src/components/common/Chatbot.jsx:24-41 | with a token, the greeting with three example chips; without one, a login prompt |
| Chatbot.History | src/components/common/Chatbot.jsx:92-95 | at most the last 10 messages, in order; role "user" iff a user sent it, else "assistant"; content kept |
| Chatbot.FailureText | src/components/common/Chatbot.jsx:108-112 | the reply's message (else "Something went wrong"), or the thrown message |
| Chatbot.ReplyMessage | src/components/common/Chatbot.jsx:99-125 | success: the bot's answer; "authorized" in the failure text: the session-expired prompt; any other failure: the generic apology flagged as an error; never both an error and a login prompt |
| Chatbot.UnauthorizedEndsSession | src/components/common/Chatbot.jsx:108-112 | the thrown "Unauthorized" ends the session; an unsuccessful answer without a message does not, since its default text "Something went wrong" never mentions "authorized" |
| Chatbot.NotContained | src/components/common/Chatbot.jsx:112 | text without the pattern's first character does not contain the pattern |
| Chatbot.QuickSuggestions | src/components/common/Chatbot.jsx:276-278 | shown iff signed in, suggestions loaded and at most one message; then exactly the first min(4, n) suggestions |
| Chatbot.ChatWidget.constructor | src/components/common/Chatbot.jsx:7-12 | closed, empty log and input, not loading, signed out |
| Chatbot.ChatWidget.CheckAuthStatus | src/components/common/Chatbot.jsx:18-21 | signed in iff a token is stored |
| Chatbot.ChatWidget.Greet | src/components/common/Chatbot.jsx:24-41 | only an empty log gets the greeting |
| Chatbot.ChatWidget.LoadSuggestions | src/components/common/Chatbot.jsx:44-52 | suggestions are kept only from a successful answer |
| Chatbot.ChatWidget.SetInput | src/components/common/Chatbot.jsx:9 | only the input changes |
| Chatbot.ChatWidget.BeginSend | src/components/common/Chatbot.jsx:71-97 | blank or in-flight: nothing; no token: one login prompt; otherwise the user message is appended, the input cleared, loading set, and the request carries the history of the log before this message |
| Chatbot.ChatWidget.FinishSend | src/components/common/Chatbot.jsx:98-128 | exactly one reply message is appended; an expired session signs out; loading ends |
| Chatbot.ChatWidget.HandleSendMessage | src/components/common/Chatbot.jsx:71-145 | the log only grows, by at most two messages; a send not blocked by another leaves nothing loading |

## Left out

- JSX markup, styling, scrolling and focus effects are not modelled. They are presentation only.
- Network calls are not modelled. The car, booking, upload and chat services, and the two inline `fetch` calls of the profile page, are replaced by their outcomes, passed in as parameters.
- Async timing is not modelled: `setTimeout` delays, promise interleavings and stale responses. Each handler is one step. The only exception is the chat send, split at its `await`.
- `new Date()` is not modelled. The current time and year are parameters, and dates are integer milliseconds. Date-string parsing, invalid-date `NaN` and `toLocaleDateString` are not modelled.
- Floating point is not modelled: the average rating and its `toFixed(1)`, and `parseFloat`/`parseInt` of form inputs. Prices, mileage, year and seats are integers; an empty number input is `None`.
- Common.ToUpper: upper-cases ASCII letters only. JavaScript's full Unicode case mapping is not modelled.
- UserJson.Parse: reads only the fixed four-key shape that `Stringify` writes. It does not accept arbitrary white space, key order, or surrogate `\u` escapes. General `JSON.parse` is not modelled.
- `resetPassword` in the session service is not modelled. It only waits for a timer and resolves.
- Bookings are modelled as received from the bookings service. Its own header rule (it reads only the `token` key) is not modelled.
- CarCard's location fallback (`location.city`, the location itself, or the distance) is not modelled. Its object-or-string field has no faithful typed form.
- AddCarPage's generic `handleChange` is not modelled. It writes any named field with the raw input; the model's form keeps typed fields instead.
- Page-level auth gates that only navigate to `/login` are modelled as a boolean input where they guard a handler. This applies to the effects on mount of the bookings, cars and profile pages.
- Profile.Load and Profile.Submit: they take the missing `getToken` and `updateUser` as working. Whatever `updateUser` would write to storage is not modelled.
- The chat widget's handling of non-string message content (`JSON.stringify` of cars) is not modelled. Messages hold text only.
- Chatbot.ReplyMessage: the bot message of a successful reply keeps only its text. The `cars` and `responseType` fields it also carries (src/components/common/Chatbot.jsx:103-104) are not modelled.
- The 15% host fee is only text on the wizard page and is not modelled.
- There is no percentage service fee and no booking submission flow. The confirmation dialog adds a flat ₹50 (src/pages/CarDetailPage.jsx:376-380). `confirmBooking` only alerts, closes the dialog and navigates (src/pages/CarDetailPage.jsx:98-102).
- Profile.GetInitials: characters are Unicode scalar values, not UTF-16 code units. For a word that starts outside the Basic Multilingual Plane, JavaScript's `word[0]` is a lone surrogate, which a Dafny `char` cannot hold. Names inside that plane behave as in the source.
- Profile.Take2: `substring(0, 2)` counts UTF-16 code units; the model counts characters. The two agree when the initials lie in the Basic Multilingual Plane.
- Auth.AuthService.CheckAuth: the stored user text is read by `UserJson.Parse`, which accepts only the shape `Stringify` writes. Text that `JSON.parse` accepts in another form ("null", other key order, extra white space) is an error in the model. Only login and signup write that key, and what they write reads back (`UserJson.ParseStringify`).

## Findings

| source | as written | input that shows it | evidently intended | confidence | as-written member | corrected member |
|---|---|---|---|---|---|---|
| src/pages/ProfilePage.jsx:28 | the profile request header calls `authService.getToken()`, which the session service does not define; the call throws inside the `try`, so the catch shows "Failed to load user data" and the page shows "User not found" | a signed-in user whose `me` request would succeed | send the stored token and show the returned user | not executed | Profile.LoadAsWrittenLosesUser | Profile.Load |
| src/pages/ProfilePage.jsx:72 | the save request also calls the missing `getToken` (and `updateUser` at line 85 is missing too), so every save ends in "An error occurred. Please try again." | a save the server accepts | report success and end editing | not executed | Profile.SubmitAsWrittenAlwaysFails | Profile.Submit |
