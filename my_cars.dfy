/** The host's fleet page: the list of the host's cars with show/hide and
    delete, the active/inactive/all tabs, and the summary figures. */
module MyCars {
  import opened Common

  /** A listed car as the host endpoint returns it; a missing `isActive`
      reads as false. */
  datatype Car = Car(id: string, isActive: bool, totalEarnings: Option<int>, totalBookings: Option<int>)

  datatype Tab = ActiveTab | InactiveTab | AllTab

  /** The state update of `handleToggleStatus`: every car with the given id
      gets the new status; every other car, and the order, stay. */
  function SetStatus(cars: seq<Car>, id: string, newStatus: bool): (r: seq<Car>)
    ensures |r| == |cars|
    ensures forall i :: 0 <= i < |cars| && cars[i].id == id ==> r[i] == cars[i].(isActive := newStatus)
    ensures forall i :: 0 <= i < |cars| && cars[i].id != id ==> r[i] == cars[i]
  {
    if cars == [] then []
    else [if cars[0].id == id then cars[0].(isActive := newStatus) else cars[0]] +
         SetStatus(cars[1..], id, newStatus)
  }

  predicate UniqueIds(cars: seq<Car>) {
    forall i, j :: 0 <= i < j < |cars| ==> cars[i].id != cars[j].id
  }

  /** With unique ids, toggling car `k` (the page passes its current status)
      flips exactly that car, and toggling it again restores the list. */
  lemma ToggleFlipsOne(cars: seq<Car>, k: int)
    requires UniqueIds(cars) && 0 <= k < |cars|
    ensures var r := SetStatus(cars, cars[k].id, !cars[k].isActive);
            r[k].isActive == !cars[k].isActive &&
            (forall i :: 0 <= i < |cars| && i != k ==> r[i] == cars[i]) &&
            SetStatus(r, cars[k].id, cars[k].isActive) == cars
  {
    var r := SetStatus(cars, cars[k].id, !cars[k].isActive);
    var back := SetStatus(r, cars[k].id, cars[k].isActive);
    assert forall i :: 0 <= i < |cars| ==> r[i].id == cars[i].id;
    assert forall i :: 0 <= i < |cars| ==> back[i] == cars[i];
  }

  /** The state update of `handleDeleteCar`: the cars with the given id go,
      the rest stay in order. */
  function DeleteCar(cars: seq<Car>, id: string): (r: seq<Car>)
    ensures forall c :: c in r <==> c in cars && c.id != id
    ensures IsSubsequence(r, cars)
  {
    FilterIsSubsequence(cars, (c: Car) => c.id != id);
    FilterMembers(cars, (c: Car) => c.id != id);
    Filter(cars, (c: Car) => c.id != id)
  }

  /** Deleting removes exactly as many entries as have the id. */
  lemma DeleteCount(cars: seq<Car>, id: string)
    ensures |DeleteCar(cars, id)| + |Filter(cars, (c: Car) => c.id == id)| == |cars|
  {
    FilterSplit(cars, (c: Car) => c.id != id, (c: Car) => c.id == id);
  }

  function ActiveCars(cars: seq<Car>): seq<Car> {
    Filter(cars, (c: Car) => c.isActive)
  }

  function InactiveCars(cars: seq<Car>): seq<Car> {
    Filter(cars, (c: Car) => !c.isActive)
  }

  /** `filteredCars`: the whole list on the "all" tab, else the cars with
      (or without) `isActive`, in the order of the list. */
  function FilteredCars(cars: seq<Car>, tab: Tab): (r: seq<Car>)
    ensures tab == AllTab ==> r == cars
    ensures tab == ActiveTab ==> forall c :: c in r <==> c in cars && c.isActive
    ensures tab == InactiveTab ==> forall c :: c in r <==> c in cars && !c.isActive
    ensures IsSubsequence(r, cars)
  {
    match tab
    case AllTab =>
      FilterAll(cars, (c: Car) => true);
      FilterIsSubsequence(cars, (c: Car) => true);
      cars
    case ActiveTab =>
      FilterMembers(cars, (c: Car) => c.isActive);
      FilterIsSubsequence(cars, (c: Car) => c.isActive);
      ActiveCars(cars)
    case InactiveTab =>
      FilterMembers(cars, (c: Car) => !c.isActive);
      FilterIsSubsequence(cars, (c: Car) => !c.isActive);
      InactiveCars(cars)
  }

  /** The counts on the "Active" and "Inactive" tab buttons add up to the
      count on "All Cars". */
  lemma TabCountsAddUp(cars: seq<Car>)
    ensures |ActiveCars(cars)| + |InactiveCars(cars)| == |cars|
    ensures multiset(ActiveCars(cars)) + multiset(InactiveCars(cars)) == multiset(cars)
  {
    FilterSplit(cars, (c: Car) => c.isActive, (c: Car) => !c.isActive);
  }

  /** `activeListings`: the number of cars with `isActive`, counted from
      the list (the stats' own figure is not used for it). */
  function ActiveListings(cars: seq<Car>): (n: nat)
    ensures n <= |cars|
    ensures n == |cars| <==> forall c :: c in cars ==> c.isActive
  {
    TabCountsAddUp(cars);
    AllActiveFilter(cars);
    FilterMembers(cars, (c: Car) => !c.isActive);
    |ActiveCars(cars)|
  }

  lemma AllActiveFilter(cars: seq<Car>)
    ensures (forall c :: c in cars ==> c.isActive) ==> ActiveCars(cars) == cars
  {
    if forall c :: c in cars ==> c.isActive {
      FilterAll(cars, (c: Car) => c.isActive);
    }
  }

  function Earnings(c: Car): int {
    NumOrZero(c.totalEarnings)
  }

  function Bookings(c: Car): int {
    NumOrZero(c.totalBookings)
  }

  /** The summed per-car figures split over any filter of the list. */
  lemma {:induction false} SumSplit(cars: seq<Car>, f: Car -> int, p: Car -> bool, q: Car -> bool)
    requires forall x :: q(x) == !p(x)
    ensures Sum(Filter(cars, p), f) + Sum(Filter(cars, q), f) == Sum(cars, f)
  {
    if cars != [] {
      SumSplit(cars[1..], f, p, q);
      var head := [cars[0]];
      assert Filter(cars, p) == (if p(cars[0]) then head else []) + Filter(cars[1..], p);
      assert Filter(cars, q) == (if q(cars[0]) then head else []) + Filter(cars[1..], q);
      SumConcat(if p(cars[0]) then head else [], Filter(cars[1..], p), f);
      SumConcat(if q(cars[0]) then head else [], Filter(cars[1..], q), f);
    }
  }

  lemma SumConcat(a: seq<Car>, b: seq<Car>, f: Car -> int)
    requires |a| <= 1
    ensures Sum(a + b, f) == Sum(a, f) + Sum(b, f)
  {
    if a != [] {
      assert (a + b)[1..] == b;
      assert a[1..] == [];
    } else {
      assert a + b == b;
    }
  }

  /** `totalRevenue`: the stats figure when it is non-zero, else the sum of
      the cars' earnings with a missing figure counted as 0. */
  function TotalRevenue(statsEarnings: int, cars: seq<Car>): (r: int)
    ensures statsEarnings != 0 ==> r == statsEarnings
    ensures statsEarnings == 0 ==> r == Sum(cars, Earnings)
  {
    if statsEarnings != 0 then statsEarnings else Sum(cars, Earnings)
  }

  /** `totalBookings`: as `totalRevenue`, for the booking counts. */
  function TotalBookings(statsBookings: int, cars: seq<Car>): (r: int)
    ensures statsBookings != 0 ==> r == statsBookings
    ensures statsBookings == 0 ==> r == Sum(cars, Bookings)
  {
    if statsBookings != 0 then statsBookings else Sum(cars, Bookings)
  }

  /** With no stats figure, deleting a car takes exactly its earnings off
      the revenue shown. */
  lemma DeleteLowersRevenue(cars: seq<Car>, id: string)
    ensures TotalRevenue(0, cars) ==
            TotalRevenue(0, DeleteCar(cars, id)) + Sum(Filter(cars, (c: Car) => c.id == id), Earnings)
  {
    SumSplit(cars, Earnings, (c: Car) => c.id != id, (c: Car) => c.id == id);
  }

  /** The stats endpoint's figures, every one of which may be missing. */
  datatype StatsData = StatsData(totalRevenue: Option<int>, totalBookings: Option<int>,
                                 activeCars: Option<int>, avgRating: Option<real>)

  /** The stats response: the figures under `stats`, or at the top level. */
  datatype StatsResponse = StatsResponse(stats: Option<StatsData>, topLevel: StatsData)

  datatype HostStats = HostStats(totalEarnings: int, totalBookings: int, activeListings: int, averageRating: real)

  const ZeroStats: HostStats := HostStats(0, 0, 0, 0.0)

  /** `fetchStats`: each figure defaults to 0 when missing, and a failed
      request resets all four to 0. */
  function NormaliseStats(resp: Result<StatsResponse>): (s: HostStats)
    ensures resp.Err? ==> s == ZeroStats
    ensures resp.Ok? ==>
              var d := resp.value.stats.GetOr(resp.value.topLevel);
              s.totalEarnings == NumOrZero(d.totalRevenue) &&
              s.totalBookings == NumOrZero(d.totalBookings) &&
              s.activeListings == NumOrZero(d.activeCars) &&
              s.averageRating == d.avgRating.GetOr(0.0)
  {
    match resp
    case Err(_) => ZeroStats
    case Ok(r) =>
      var d := r.stats.GetOr(r.topLevel);
      HostStats(NumOrZero(d.totalRevenue), NumOrZero(d.totalBookings), NumOrZero(d.activeCars),
                d.avgRating.GetOr(0.0))
  }

  /** The host cars response: an object with a `cars` list, or a bare list. */
  datatype CarsResponse = CarsObject(cars: seq<Car>) | CarsList(list: seq<Car>)

  function CarsOf(resp: CarsResponse): seq<Car> {
    match resp
    case CarsObject(cs) => cs
    case CarsList(cs) => cs
  }

  const ToggleFailedMessage: string := "Failed to update car status"
  const DeleteFailedMessage: string := "Failed to delete car"

  class MyCarsPage {
    var cars: seq<Car>
    var loading: bool
    var activeTab: Tab
    var error: string
    var stats: HostStats

    constructor ()
      ensures cars == [] && loading && activeTab == ActiveTab && error == "" && stats == ZeroStats
    {
      cars := [];
      loading := true;
      activeTab := ActiveTab;
      error := "";
      stats := ZeroStats;
    }

    /** `fetchCars`: the error is cleared, the list replaced by the
        response's cars, or emptied with the thrown message (else a default)
        as the error; loading ends either way. */
    method FetchCars(resp: Result<CarsResponse>)
      modifies this
      ensures !loading && activeTab == old(activeTab) && stats == old(stats)
      ensures resp.Ok? ==> cars == CarsOf(resp.value) && error == ""
      ensures resp.Err? ==> cars == [] && error == OrElse(resp.message, "Failed to load your cars")
    {
      loading := true;
      error := "";
      match resp {
        case Ok(r) =>
          cars := CarsOf(r);
        case Err(m) =>
          error := OrElse(m, "Failed to load your cars");
          cars := [];
      }
      loading := false;
    }

    method FetchStats(resp: Result<StatsResponse>)
      modifies this
      ensures stats == NormaliseStats(resp)
      ensures cars == old(cars) && loading == old(loading) && activeTab == old(activeTab) && error == old(error)
    {
      stats := NormaliseStats(resp);
    }

    /** `handleToggleStatus`: after the status request succeeds, the cars
        with that id get the opposite of the status the button showed. */
    method HandleToggleStatus(carId: string, currentStatus: bool, apiResult: Result<()>)
      modifies this
      ensures apiResult.Ok? ==> cars == SetStatus(old(cars), carId, !currentStatus) && error == old(error)
      ensures apiResult.Err? ==> cars == old(cars) && error == ToggleFailedMessage
      ensures loading == old(loading) && activeTab == old(activeTab) && stats == old(stats)
    {
      if apiResult.Err? {
        error := ToggleFailedMessage;
        return;
      }
      cars := SetStatus(cars, carId, !currentStatus);
    }

    /** `handleDeleteCar`: nothing unless the user confirms; then, after the
        delete request succeeds, the cars with that id leave the list. */
    method HandleDeleteCar(carId: string, confirmed: bool, apiResult: Result<()>)
      modifies this
      ensures !confirmed ==> cars == old(cars) && error == old(error)
      ensures confirmed && apiResult.Ok? ==> cars == DeleteCar(old(cars), carId) && error == old(error)
      ensures confirmed && apiResult.Err? ==> cars == old(cars) && error == DeleteFailedMessage
      ensures loading == old(loading) && activeTab == old(activeTab) && stats == old(stats)
    {
      if !confirmed {
        return;
      }
      if apiResult.Err? {
        error := DeleteFailedMessage;
        return;
      }
      cars := DeleteCar(cars, carId);
    }

    method SelectTab(tab: Tab)
      modifies this
      ensures activeTab == tab
      ensures cars == old(cars) && loading == old(loading) && error == old(error) && stats == old(stats)
    {
      activeTab := tab;
    }
  }
}
