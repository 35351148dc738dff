/**
  The trip list page: the request it sends for the current page, the
  advanced filters it applies in the browser to the trips of that page, the
  sort and page controls, the five-button page window, the "Showing X to Y"
  line and the zero-padded trip number.
 */
module TripList {
  import opened Wrappers
  import opened Seqs
  import opened Text
  import opened Numbers
  import opened Trips
  import opened FilterPanelModel
  import opened OrderStore

  /** Trips per page. */
  const PageSize := 10
  /** The sort fields the page offers. */
  const SortOptions: set<string> := {"created_at", "updated_at", "status"}

  /** A text filter that is present and non-empty. */
  predicate Active(o: Option<string>) {
    o.Some? && o.value != ""
  }

  /** A weight filter that is present and truthy (neither 0 nor NaN). */
  predicate WeightActive(o: Option<Num>) {
    o.Some? && Truthy(o.value)
  }

  /**
    A trip passes the advanced filters. Each filter applies only when its value
    is set: the pickup date must fall on the chosen day (`dayOf` stands for
    `new Date(x).toDateString()`), the cities are substrings, equipment and
    cargo type match exactly and the weight lies within the set bounds. The
    time window and the shipper are not looked at.
   */
  predicate Admits(f: FilterValues, dayOf: string -> string, t: Trip) {
    DayOk(f, dayOf, t) && PickupOk(f, t) && DeliveryOk(f, t) && EquipmentOk(f, t)
    && CargoOk(f, t) && MinWeightOk(f, t) && MaxWeightOk(f, t)
  }

  predicate DayOk(f: FilterValues, dayOf: string -> string, t: Trip) {
    Active(f.availableDate) ==> dayOf(t.pickupDate) == dayOf(f.availableDate.value)
  }

  predicate PickupOk(f: FilterValues, t: Trip) {
    Active(f.pickupCity) ==> Contains(t.pickupLocation, f.pickupCity.value)
  }

  predicate DeliveryOk(f: FilterValues, t: Trip) {
    Active(f.deliveryCity) ==> Contains(t.deliveryLocation, f.deliveryCity.value)
  }

  predicate EquipmentOk(f: FilterValues, t: Trip) {
    Active(f.equipment) ==> TextOf(t, VehicleType) == Some(f.equipment.value)
  }

  predicate CargoOk(f: FilterValues, t: Trip) {
    Active(f.cargoType) ==> t.cargoType == f.cargoType.value
  }

  predicate MinWeightOk(f: FilterValues, t: Trip) {
    WeightActive(f.weightMin) ==> t.weight >= f.weightMin.value.value
  }

  predicate MaxWeightOk(f: FilterValues, t: Trip) {
    WeightActive(f.weightMax) ==> t.weight <= f.weightMax.value.value
  }

  function Admitted(f: FilterValues, dayOf: string -> string): Trip -> bool {
    (t: Trip) => Admits(f, dayOf, t)
  }

  /** The trips the page shows: those of the loaded page that pass the filters, in order. */
  function FilteredTrips(trips: seq<Trip>, f: FilterValues, dayOf: string -> string): seq<Trip> {
    Filter(trips, Admitted(f, dayOf))
  }

  /** The trips that pass the first `k` of the seven filters, in the order `getFilteredTrips` applies them. */
  predicate PassesFirst(f: FilterValues, dayOf: string -> string, k: nat, t: Trip) {
    && (k >= 1 ==> DayOk(f, dayOf, t))
    && (k >= 2 ==> PickupOk(f, t))
    && (k >= 3 ==> DeliveryOk(f, t))
    && (k >= 4 ==> EquipmentOk(f, t))
    && (k >= 5 ==> CargoOk(f, t))
    && (k >= 6 ==> MinWeightOk(f, t))
    && (k >= 7 ==> MaxWeightOk(f, t))
  }

  function Stage(f: FilterValues, dayOf: string -> string, k: nat): Trip -> bool {
    (t: Trip) => PassesFirst(f, dayOf, k, t)
  }

  /**
    `getFilteredTrips`: starts from a copy of the loaded trips and narrows it
    one active filter at a time. Narrowing step by step keeps exactly the
    trips that pass every active filter.
   */
  method GetFilteredTrips(trips: seq<Trip>, f: FilterValues, dayOf: string -> string) returns (filtered: seq<Trip>)
    ensures filtered == FilteredTrips(trips, f, dayOf)
  {
    filtered := trips;
    FilterKeepsAll(trips, Stage(f, dayOf, 0));
    if Active(f.availableDate) {
      var day := dayOf(f.availableDate.value);
      var p := (t: Trip) => dayOf(t.pickupDate) == day;
      FilterFilter(trips, Stage(f, dayOf, 0), p, Stage(f, dayOf, 1));
      filtered := Filter(filtered, p);
    } else {
      FilterCongruent(trips, Stage(f, dayOf, 0), Stage(f, dayOf, 1));
    }
    if Active(f.pickupCity) {
      var city := f.pickupCity.value;
      var p := (t: Trip) => Contains(t.pickupLocation, city);
      FilterFilter(trips, Stage(f, dayOf, 1), p, Stage(f, dayOf, 2));
      filtered := Filter(filtered, p);
    } else {
      FilterCongruent(trips, Stage(f, dayOf, 1), Stage(f, dayOf, 2));
    }
    if Active(f.deliveryCity) {
      var city := f.deliveryCity.value;
      var p := (t: Trip) => Contains(t.deliveryLocation, city);
      FilterFilter(trips, Stage(f, dayOf, 2), p, Stage(f, dayOf, 3));
      filtered := Filter(filtered, p);
    } else {
      FilterCongruent(trips, Stage(f, dayOf, 2), Stage(f, dayOf, 3));
    }
    if Active(f.equipment) {
      var kind := f.equipment.value;
      var p := (t: Trip) => TextOf(t, VehicleType) == Some(kind);
      FilterFilter(trips, Stage(f, dayOf, 3), p, Stage(f, dayOf, 4));
      filtered := Filter(filtered, p);
    } else {
      FilterCongruent(trips, Stage(f, dayOf, 3), Stage(f, dayOf, 4));
    }
    if Active(f.cargoType) {
      var cargo := f.cargoType.value;
      var p := (t: Trip) => t.cargoType == cargo;
      FilterFilter(trips, Stage(f, dayOf, 4), p, Stage(f, dayOf, 5));
      filtered := Filter(filtered, p);
    } else {
      FilterCongruent(trips, Stage(f, dayOf, 4), Stage(f, dayOf, 5));
    }
    if WeightActive(f.weightMin) {
      var least := f.weightMin.value.value;
      var p := (t: Trip) => t.weight >= least;
      FilterFilter(trips, Stage(f, dayOf, 5), p, Stage(f, dayOf, 6));
      filtered := Filter(filtered, p);
    } else {
      FilterCongruent(trips, Stage(f, dayOf, 5), Stage(f, dayOf, 6));
    }
    if WeightActive(f.weightMax) {
      var most := f.weightMax.value.value;
      var p := (t: Trip) => t.weight <= most;
      FilterFilter(trips, Stage(f, dayOf, 6), p, Stage(f, dayOf, 7));
      filtered := Filter(filtered, p);
    } else {
      FilterCongruent(trips, Stage(f, dayOf, 6), Stage(f, dayOf, 7));
    }
    FilterCongruent(trips, Stage(f, dayOf, 7), Admitted(f, dayOf));
  }

  /** The shown trips are the loaded ones that pass the filters, in their order, nothing added. */
  lemma FilteredTripsExact(trips: seq<Trip>, f: FilterValues, dayOf: string -> string)
    ensures IsSubsequence(FilteredTrips(trips, f, dayOf), trips)
    ensures forall t :: t in FilteredTrips(trips, f, dayOf) <==> t in trips && Admits(f, dayOf, t)
    ensures forall t :: multiset(FilteredTrips(trips, f, dayOf))[t]
                        == if Admits(f, dayOf, t) then multiset(trips)[t] else 0
  {
    FilterSpec(trips, Admitted(f, dayOf));
  }

  /** Every shown trip lies within the weight bounds that are set. */
  lemma ShownTripsWithinWeights(trips: seq<Trip>, f: FilterValues, dayOf: string -> string, t: Trip)
    requires t in FilteredTrips(trips, f, dayOf)
    ensures WeightActive(f.weightMin) ==> t.weight >= f.weightMin.value.value
    ensures WeightActive(f.weightMax) ==> t.weight <= f.weightMax.value.value
  {
    FilteredTripsExact(trips, f, dayOf);
  }

  /** With the empty filter record every loaded trip is shown. */
  lemma NoFiltersShowsAll(trips: seq<Trip>, dayOf: string -> string)
    ensures FilteredTrips(trips, NoFilters, dayOf) == trips
  {
    FilterKeepsAll(trips, Admitted(NoFilters, dayOf));
  }

  /** A minimum weight of 0 (or NaN) is falsy and filters nothing, as if it were not set. */
  lemma FalsyWeightMinIgnored(trips: seq<Trip>, f: FilterValues, dayOf: string -> string, w: Num)
    requires !Truthy(w)
    ensures FilteredTrips(trips, f.(weightMin := Some(w)), dayOf) == FilteredTrips(trips, f.(weightMin := None), dayOf)
  {
    FilterCongruent(trips, Admitted(f.(weightMin := Some(w)), dayOf), Admitted(f.(weightMin := None), dayOf));
  }

  /** The chosen time window and shipper never change which trips are shown. */
  lemma TimeWindowAndShipperIgnored(trips: seq<Trip>, f: FilterValues, dayOf: string -> string,
                                    window: Option<string>, shipper: Option<string>)
    ensures FilteredTrips(trips, f.(timeWindow := window, shipper := shipper), dayOf) == FilteredTrips(trips, f, dayOf)
  {
    FilterCongruent(trips, Admitted(f.(timeWindow := window, shipper := shipper), dayOf), Admitted(f, dayOf));
  }

  /** The page number on button `i` of the window. */
  function PageButton(page: int, totalPages: nat, i: nat): int {
    if totalPages <= 5 then i + 1
    else if page <= 3 then i + 1
    else if page >= totalPages - 2 then totalPages - 4 + i
    else page - 2 + i
  }

  /**
    The page buttons: `min(5, totalPages)` consecutive page numbers, all
    between 1 and `totalPages`, including the current page whenever it is
    one of the pages.
   */
  function PageWindow(page: int, totalPages: nat): (r: seq<int>)
    ensures |r| == Min(5, totalPages)
    ensures forall i :: 0 <= i < |r| - 1 ==> r[i + 1] == r[i] + 1
    ensures forall i :: 0 <= i < |r| ==> 1 <= r[i] <= totalPages
    ensures 1 <= page <= totalPages ==> page in r
  {
    var n := Min(5, totalPages);
    var r := seq(n, i requires 0 <= i < n => PageButton(page, totalPages, i));
    assert 1 <= page <= totalPages ==> r[page - r[0]] == page;
    r
  }

  /** Away from both ends the current page sits in the middle of the window. */
  lemma PageWindowCentred(page: int, totalPages: nat)
    requires totalPages > 5 && 3 < page < totalPages - 2
    ensures PageWindow(page, totalPages)[2] == page
  {
  }

  /** "Showing `first` to `last` of `total` results". */
  function ShownRange(page: int, limit: int, total: nat): (int, int) {
    ((page - 1) * limit + 1, Min(page * limit, total))
  }

  /**
    For a page the server can return, the range line counts exactly the
    orders on that page, and stays between 1 and the total.
   */
  lemma ShownRangeCountsPage(s: seq<Trip>, page: int, limit: int)
    requires limit >= 1 && 1 <= page <= CeilDiv(|s|, limit)
    ensures var (first, last) := ShownRange(page, limit, |s|);
            1 <= first <= last <= |s| && last - first + 1 == |PageSlice(s, page, limit)|
  {
    var c := CeilDiv(|s|, limit);
    assert (page - 1) * limit <= (c - 1) * limit;
    assert page * limit == (page - 1) * limit + limit;
  }

  /** The trip number with leading zeros up to six digits. */
  function PaddedId(id: nat): (r: string)
    ensures |r| == if |NatToString(id)| >= 6 then |NatToString(id)| else 6
    ensures r[|r| - |NatToString(id)|..] == NatToString(id)
    ensures forall i :: 0 <= i < |r| - |NatToString(id)| ==> r[i] == '0'
    ensures AllDigits(r) && DigitsValue(r) == id
  {
    var digits := NatToString(id);
    var r := PadStart(digits, 6, '0');
    if |digits| < 6 then
      LeadingZerosKeepValue(6 - |digits|, digits);
      r
    else r
  }

  function Flip(order: string): string {
    if order == "asc" then "desc" else "asc"
  }

  /** The list page's state. */
  class TripListView {
    var trips: seq<Trip>
    var page: int
    var totalPages: nat
    var total: nat
    var search: string
    var statusFilter: string
    var sortBy: string
    var sortOrder: string
    var advancedFilters: FilterValues

    ghost predicate Valid()
      reads this
    {
      page >= 1 && sortBy in SortOptions && (sortOrder == "asc" || sortOrder == "desc")
    }

    /** The listing request the page sends for its current state; empty texts are left out. */
    function Request(): ListQuery
      reads this
    {
      ListQuery(page, PageSize, if search == "" then None else Some(search),
                if statusFilter == "" then None else Some(statusFilter), None, sortBy, sortOrder)
    }

    /** The trips shown for the loaded page. */
    function Shown(dayOf: string -> string): seq<Trip>
      reads this
    {
      FilteredTrips(trips, advancedFilters, dayOf)
    }

    constructor ()
      ensures Valid() && page == 1 && totalPages == 1 && total == 0 && trips == []
      ensures search == "" && statusFilter == "" && sortBy == "created_at" && sortOrder == "desc"
      ensures advancedFilters == NoFilters
    {
      trips, page, totalPages, total := [], 1, 1, 0;
      search, statusFilter := "", "";
      sortBy, sortOrder := "created_at", "desc";
      advancedFilters := NoFilters;
    }

    /** `handleSearch`: new search text, back to page 1. */
    method HandleSearch(value: string)
      requires Valid()
      modifies this`search, this`page
      ensures Valid() && search == value && page == 1
    {
      search := value;
      page := 1;
    }

    /** `handleStatusFilter`: new status, back to page 1. */
    method HandleStatusFilter(status: string)
      requires Valid()
      modifies this`statusFilter, this`page
      ensures Valid() && statusFilter == status && page == 1
    {
      statusFilter := status;
      page := 1;
    }

    /**
      `handleSort`: the current field flips between ascending and descending,
      another field is sorted descending; back to page 1.
     */
    method HandleSort(field: string)
      requires Valid() && field in SortOptions
      modifies this`sortBy, this`sortOrder, this`page
      ensures Valid() && sortBy == field && page == 1
      ensures field == old(sortBy) ==> sortOrder == Flip(old(sortOrder)) && sortOrder != old(sortOrder)
      ensures field != old(sortBy) ==> sortOrder == "desc"
    {
      if sortBy == field {
        sortOrder := Flip(sortOrder);
      } else {
        sortBy := field;
        sortOrder := "desc";
      }
      page := 1;
    }

    /** `handleApplyFilters`: the panel's record replaces the filters, back to page 1. */
    method HandleApplyFilters(filters: FilterValues)
      requires Valid()
      modifies this`advancedFilters, this`page
      ensures Valid() && advancedFilters == filters && page == 1
    {
      advancedFilters := filters;
      page := 1;
    }

    /** The sort field select: changes the field and keeps the page. */
    method SelectSortField(field: string)
      requires Valid() && field in SortOptions
      modifies this`sortBy
      ensures Valid() && sortBy == field
    {
      sortBy := field;
    }

    /** The arrow button: flips the order and keeps the page. */
    method ToggleSortOrder()
      requires Valid()
      modifies this`sortOrder
      ensures Valid() && sortOrder == Flip(old(sortOrder)) && sortOrder != old(sortOrder)
    {
      sortOrder := Flip(sortOrder);
    }

    /** "Clear filters" under an empty result: drops every filter and keeps the page. */
    method ClearAdvancedFilters(dayOf: string -> string)
      requires Valid()
      modifies this`advancedFilters
      ensures Valid() && advancedFilters == NoFilters && Shown(dayOf) == trips
    {
      advancedFilters := NoFilters;
      NoFiltersShowsAll(trips, dayOf);
    }

    /** "Previous": disabled on page 1. */
    method PreviousPage()
      requires Valid()
      modifies this`page
      ensures Valid() && page == if old(page) == 1 then 1 else old(page) - 1
    {
      if page != 1 {
        page := page - 1;
      }
    }

    /** "Next": disabled on the last page. */
    method NextPage()
      requires Valid()
      modifies this`page
      ensures Valid() && page == if old(page) == totalPages then old(page) else old(page) + 1
    {
      if page != totalPages {
        page := page + 1;
      }
    }

    /** A click on button `i` of the page window. */
    method GoToPage(i: nat)
      requires Valid() && i < |PageWindow(page, totalPages)|
      modifies this`page
      ensures Valid() && page == PageWindow(old(page), totalPages)[i] && 1 <= page <= totalPages
    {
      page := PageWindow(page, totalPages)[i];
    }

    /** A listing response arrives: its trips, total and page count replace the old ones. */
    method ReceivePage(response: OrderPage)
      requires Valid()
      modifies this`trips, this`total, this`totalPages
      ensures Valid() && trips == response.orders && total == response.total
      ensures totalPages == response.totalPages
    {
      trips := response.orders;
      total := response.total;
      totalPages := response.totalPages;
    }
  }

  /** Every request the page can send passes the server's parameter validation. */
  lemma RequestIsAccepted(v: TripListView)
    requires v.Valid()
    ensures ValidQuery(v.Request())
  {
  }

  /** Sorting twice by the same field restores the original order. */
  lemma FlipTwice(order: string)
    requires order == "asc" || order == "desc"
    ensures Flip(Flip(order)) == order
  {
  }
}
