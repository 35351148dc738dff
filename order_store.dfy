/**
  The order endpoints of the API over an in-memory store: the table of
  orders is a sequence in insertion order, each order carrying its stops, and
  the known customers are a set of ids. Every endpoint either succeeds or
  answers with an HTTP error; a failed write leaves the store as it was.
 */
module OrderStore {
  import opened Wrappers
  import opened Seqs
  import opened Sorting
  import opened Text
  import opened Numbers
  import opened Trips
  import QuoteCalculator

  /** 404, 400 and 422 (a request the schema rejects before the handler runs). */
  datatype ApiError = NotFound | BadRequest | Unprocessable

  const MaxPageSize := 100
  const SortColumns: set<string> := {"created_at", "updated_at", "status", "id"}

  /** The query string of the listing endpoint; absent parameters are `None`. */
  datatype ListQuery = ListQuery(
    page: int,
    limit: int,
    search: Option<string>,
    status: Option<string>,
    customerId: Option<int>,
    sortBy: string,
    sortOrder: string)

  /** The listing response. */
  datatype OrderPage = OrderPage(orders: seq<Trip>, total: nat, page: int, limit: int, totalPages: nat)

  /** The bounds and patterns the listing parameters are declared with. */
  predicate ValidQuery(q: ListQuery) {
    q.page >= 1 && 1 <= q.limit <= MaxPageSize && q.sortBy in SortColumns
    && (q.sortOrder == "asc" || q.sortOrder == "desc")
  }

  /** A text parameter that is present and non-empty, i.e. truthy. */
  predicate Given(p: Option<string>) {
    p.Some? && p.value != ""
  }

  /** The search term occurs, ignoring case, in the pickup, delivery, cargo type or reference number. */
  predicate SearchMatches(o: Trip, term: string) {
    ContainsIgnoringCase(o.pickupLocation, term)
    || ContainsIgnoringCase(o.deliveryLocation, term)
    || ContainsIgnoringCase(o.cargoType, term)
    || (ReferenceNumber in o.optional && ContainsIgnoringCase(o.optional[ReferenceNumber], term))
  }

  /** An order passes the listing filters; each one applies only when its parameter is truthy. */
  predicate Matches(q: ListQuery, o: Trip) {
    && (Given(q.search) ==> SearchMatches(o, q.search.value))
    && (Given(q.status) ==> o.status == q.status.value)
    && (q.customerId.Some? && q.customerId.value != 0 ==> o.customerId == q.customerId.value)
  }

  function MatchesQuery(q: ListQuery): Trip -> bool {
    (o: Trip) => Matches(q, o)
  }

  /** The orders the listing counts, in table order. */
  function MatchingOrders(orders: seq<Trip>, q: ListQuery): seq<Trip> {
    Filter(orders, MatchesQuery(q))
  }

  /** The count keeps exactly the matching orders, in table order, each as often as stored. */
  lemma MatchingOrdersExact(orders: seq<Trip>, q: ListQuery)
    ensures IsSubsequence(MatchingOrders(orders, q), orders)
    ensures forall o :: o in MatchingOrders(orders, q) <==> o in orders && Matches(q, o)
    ensures forall o :: multiset(MatchingOrders(orders, q))[o] == if Matches(q, o) then multiset(orders)[o] else 0
  {
    FilterSpec(orders, MatchesQuery(q));
  }

  /** With no search, status or customer the listing counts every order. */
  lemma NoFiltersCountsAll(orders: seq<Trip>, q: ListQuery)
    requires !Given(q.search) && !Given(q.status) && (q.customerId.None? || q.customerId.value == 0)
    ensures MatchingOrders(orders, q) == orders
  {
    FilterKeepsAll(orders, MatchesQuery(q));
  }

  /** The integer sort columns. */
  function IntKey(sortBy: string, o: Trip): int {
    if sortBy == "created_at" then o.createdAt
    else if sortBy == "updated_at" then o.updatedAt
    else o.id
  }

  /** `a` may come before `b` when ordering by `sortBy`, descending when `desc`. */
  predicate Precedes(sortBy: string, desc: bool, a: Trip, b: Trip) {
    if sortBy == "status" then
      (if desc then LexLeq(b.status, a.status) else LexLeq(a.status, b.status))
    else
      (if desc then IntKey(sortBy, b) <= IntKey(sortBy, a) else IntKey(sortBy, a) <= IntKey(sortBy, b))
  }

  function OrderLeq(sortBy: string, desc: bool): (Trip, Trip) -> bool {
    (a: Trip, b: Trip) => Precedes(sortBy, desc, a, b)
  }

  lemma OrderLeqIsTotalPreorder(sortBy: string, desc: bool)
    ensures TotalPreorder(OrderLeq(sortBy, desc))
  {
    forall a: Trip, b: Trip
      ensures OrderLeq(sortBy, desc)(a, b) || OrderLeq(sortBy, desc)(b, a)
    {
      LexLeqTotal(a.status, b.status);
    }
    forall a: Trip, b: Trip, c: Trip | OrderLeq(sortBy, desc)(a, b) && OrderLeq(sortBy, desc)(b, c)
      ensures OrderLeq(sortBy, desc)(a, c)
    {
      if sortBy == "status" {
        if desc {
          LexLeqTransitive(c.status, b.status, a.status);
        } else {
          LexLeqTransitive(a.status, b.status, c.status);
        }
      }
    }
  }

  /** The matching orders put in the requested order. */
  function SortedOrders(s: seq<Trip>, q: ListQuery): (r: seq<Trip>)
    ensures multiset(r) == multiset(s)
    ensures Sorted(r, OrderLeq(q.sortBy, q.sortOrder == "desc"))
  {
    OrderLeqIsTotalPreorder(q.sortBy, q.sortOrder == "desc");
    SortBy(s, OrderLeq(q.sortBy, q.sortOrder == "desc"))
  }

  function Min(a: int, b: int): int {
    if a <= b then a else b
  }

  /** `OFFSET (page-1)*limit LIMIT limit` over a list; an offset past the end gives nothing. */
  function PageSlice<T>(s: seq<T>, page: int, limit: int): (r: seq<T>)
    requires page >= 1 && limit >= 1
    ensures |r| == if (page - 1) * limit >= |s| then 0 else Min(limit, |s| - (page - 1) * limit)
    ensures forall i :: 0 <= i < |r| ==> r[i] == s[(page - 1) * limit + i]
  {
    OffsetNonNegative(page, limit);
    Window(s, (page - 1) * limit, limit)
  }

  /** At most `limit` elements starting at `offset`. */
  function Window<T>(s: seq<T>, offset: nat, limit: int): (r: seq<T>)
    requires limit >= 1
    ensures |r| == if offset >= |s| then 0 else Min(limit, |s| - offset)
    ensures forall i :: 0 <= i < |r| ==> r[i] == s[offset + i]
  {
    if offset >= |s| then [] else s[offset..Min(offset + limit, |s|)]
  }

  lemma OffsetNonNegative(page: int, limit: int)
    requires page >= 1 && limit >= 1
    ensures (page - 1) * limit >= 0
  {
  }

  /** `ceil(total / limit)`: the fewest pages of `limit` rows that hold `total` rows. */
  function CeilDiv(total: nat, limit: nat): (pages: nat)
    requires limit >= 1
    ensures total == 0 ==> pages == 0
    ensures total > 0 ==> (pages - 1) * limit < total <= pages * limit
  {
    var p := (total + limit - 1) / limit;
    DivisionBounds(total + limit - 1, limit);
    p
  }

  lemma DivisionBounds(n: nat, d: nat)
    requires d >= 1
    ensures (n / d) * d <= n < (n / d + 1) * d
  {
  }

  /** The first `k` pages placed one after the other. */
  function FirstPages<T>(s: seq<T>, limit: int, k: nat): seq<T>
    requires limit >= 1
  {
    if k == 0 then [] else FirstPages(s, limit, k - 1) + PageSlice(s, k, limit)
  }

  lemma {:induction false} FirstPagesArePrefix<T>(s: seq<T>, limit: int, k: nat)
    requires limit >= 1
    ensures FirstPages(s, limit, k) == s[..Min(k * limit, |s|)]
  {
    if k > 0 {
      FirstPagesArePrefix(s, limit, k - 1);
      var offset := (k - 1) * limit;
      NextOffset(k, limit);
      var page := PageSlice(s, k, limit);
      if offset < |s| {
        var end := Min(offset + limit, |s|);
        assert page == s[offset..end];
        assert s[..end] == s[..offset] + s[offset..end];
      } else {
        assert page == [];
      }
    }
  }

  /** Page `k + 1` starts where page `k` ends. */
  lemma NextOffset(k: nat, limit: int)
    requires k >= 1
    ensures k * limit == (k - 1) * limit + limit
  {
  }

  /** Reading pages 1 to `total_pages` in turn returns every matching order exactly once, in order. */
  lemma PagesCoverAll<T>(s: seq<T>, limit: int)
    requires limit >= 1
    ensures FirstPages(s, limit, CeilDiv(|s|, limit)) == s
  {
    FirstPagesArePrefix(s, limit, CeilDiv(|s|, limit));
  }

  /** A page past the last one is empty. */
  lemma PagePastEndIsEmpty<T>(s: seq<T>, page: int, limit: int)
    requires limit >= 1 && page > CeilDiv(|s|, limit)
    ensures PageSlice(s, page, limit) == []
  {
    var c := CeilDiv(|s|, limit);
    assert (page - 1) * limit >= c * limit;
  }

  /** The updatable columns of an order. */
  datatype Column =
    | PickupLocationCol | DeliveryLocationCol | PickupDateCol | DeliveryDateCol
    | CargoTypeCol | WeightCol | QuoteAmountCol | StatusCol
    | TextCol(field: OptText)

  /** A JSON value of an update body. */
  datatype Value = Text(s: string) | Number(x: real) | Null

  /** The body of an update: the fields the client sent (set, possibly to null) and the stops. */
  datatype OrderUpdate = OrderUpdate(fields: map<Column, Value>, stops: Option<seq<Stop>>)

  predicate IsNumeric(c: Column) {
    c == WeightCol || c == QuoteAmountCol
  }

  /** The columns declared without NOT NULL. */
  predicate Nullable(c: Column) {
    c.TextCol? || c == QuoteAmountCol
  }

  /** The value has the type the update schema declares for the column (null is always accepted). */
  predicate WellTyped(c: Column, v: Value) {
    match v
    case Null => true
    case Text(_) => !IsNumeric(c)
    case Number(_) => IsNumeric(c)
  }

  /** The value may be stored in the column. */
  predicate Storable(c: Column, v: Value) {
    WellTyped(c, v) && (v == Null ==> Nullable(c))
  }

  predicate UpdateWellTyped(u: OrderUpdate) {
    forall c :: c in u.fields ==> WellTyped(c, u.fields[c])
  }

  /** The update sets a NOT NULL column to null, which the database refuses at commit. */
  predicate ClearsRequired(u: OrderUpdate) {
    exists c :: c in u.fields && u.fields[c] == Null && !Nullable(c)
  }

  /** A column of an order as a JSON value. */
  function Get(o: Trip, c: Column): Value {
    match c
    case PickupLocationCol => Text(o.pickupLocation)
    case DeliveryLocationCol => Text(o.deliveryLocation)
    case PickupDateCol => Text(o.pickupDate)
    case DeliveryDateCol => Text(o.deliveryDate)
    case CargoTypeCol => Text(o.cargoType)
    case WeightCol => Number(o.weight)
    case QuoteAmountCol => if o.quoteAmount.Some? then Number(o.quoteAmount.value) else Null
    case StatusCol => Text(o.status)
    case TextCol(f) => if f in o.optional then Text(o.optional[f]) else Null
  }

  /** Every value a column can hold is one the schema accepts for it. */
  lemma GetIsStorable(o: Trip, c: Column)
    ensures Storable(c, Get(o, c))
  {
  }

  /** `setattr(order, column, value)`: that column reads back the value and nothing else changes. */
  function Set(o: Trip, c: Column, v: Value): (r: Trip)
    requires Storable(c, v)
    ensures Get(r, c) == v
    ensures forall d :: d != c ==> Get(r, d) == Get(o, d)
    ensures r.id == o.id && r.customerId == o.customerId && r.stops == o.stops
    ensures r.createdAt == o.createdAt && r.updatedAt == o.updatedAt
  {
    match c
    case PickupLocationCol => o.(pickupLocation := v.s)
    case DeliveryLocationCol => o.(deliveryLocation := v.s)
    case PickupDateCol => o.(pickupDate := v.s)
    case DeliveryDateCol => o.(deliveryDate := v.s)
    case CargoTypeCol => o.(cargoType := v.s)
    case WeightCol => o.(weight := v.x)
    case QuoteAmountCol => o.(quoteAmount := if v.Null? then None else Some(v.x))
    case StatusCol => o.(status := v.s)
    case TextCol(f) => if v.Null? then o.(optional := o.optional - {f}) else o.(optional := o.optional[f := v.s])
  }

  /** An order is determined by its columns, its stops, its ids and its timestamps. */
  lemma {:induction false} SameColumnsSameOrder(a: Trip, b: Trip)
    requires forall c :: Get(a, c) == Get(b, c)
    requires a.id == b.id && a.customerId == b.customerId && a.stops == b.stops
    requires a.createdAt == b.createdAt && a.updatedAt == b.updatedAt
    ensures a == b
  {
    assert Get(a, PickupLocationCol) == Get(b, PickupLocationCol);
    assert Get(a, DeliveryLocationCol) == Get(b, DeliveryLocationCol);
    assert Get(a, PickupDateCol) == Get(b, PickupDateCol);
    assert Get(a, DeliveryDateCol) == Get(b, DeliveryDateCol);
    assert Get(a, CargoTypeCol) == Get(b, CargoTypeCol);
    assert Get(a, WeightCol) == Get(b, WeightCol);
    assert Get(a, QuoteAmountCol) == Get(b, QuoteAmountCol);
    assert Get(a, StatusCol) == Get(b, StatusCol);
    forall f: OptText
      ensures (f in a.optional <==> f in b.optional) && (f in a.optional ==> a.optional[f] == b.optional[f])
    {
      assert Get(a, TextCol(f)) == Get(b, TextCol(f));
    }
    assert a.optional == b.optional;
  }

  /** Some sent field differs from what the order holds, so the row is written and stamped. */
  predicate ChangesSomething(before: Trip, u: OrderUpdate) {
    exists c :: c in u.fields && u.fields[c] != Get(before, c)
  }

  /**
    `after` is `before` with the update applied: each sent field holds the sent
    value, every other column is unchanged, the stops are replaced wholesale
    when a list was sent, and `updatedAt` moves to `now` when a column changed.
   */
  ghost predicate AppliedUpdate(before: Trip, u: OrderUpdate, after: Trip, now: int) {
    && (forall c :: Get(after, c) == if c in u.fields then u.fields[c] else Get(before, c))
    && after.stops == (if u.stops.Some? then u.stops.value else before.stops)
    && after.id == before.id && after.customerId == before.customerId && after.createdAt == before.createdAt
    && after.updatedAt == (if ChangesSomething(before, u) then now else before.updatedAt)
  }

  /** The description of an applied update leaves no freedom: at most one order satisfies it. */
  lemma AppliedUpdateIsUnique(before: Trip, u: OrderUpdate, a: Trip, b: Trip, now: int)
    requires AppliedUpdate(before, u, a, now) && AppliedUpdate(before, u, b, now)
    ensures a == b
  {
    SameColumnsSameOrder(a, b);
  }

  /** An update that sends nothing changes nothing. */
  lemma EmptyUpdateKeepsOrder(before: Trip, after: Trip, now: int)
    requires AppliedUpdate(before, OrderUpdate(map[], None), after, now)
    ensures after == before
  {
    SameColumnsSameOrder(after, before);
  }

  /** The body the quote calculator sends when it saves a quote. */
  function QuoteUpdate(save: QuoteCalculator.QuoteSave): OrderUpdate {
    OrderUpdate(map[QuoteAmountCol := Number(save.quoteAmount)], None)
  }

  /** Saving a quote changes the quote amount and possibly the update time of the order, and nothing else. */
  lemma QuoteSaveChangesOnlyQuote(before: Trip, save: QuoteCalculator.QuoteSave, after: Trip, now: int)
    requires AppliedUpdate(before, QuoteUpdate(save), after, now)
    ensures after == before.(quoteAmount := Some(save.quoteAmount), updatedAt := after.updatedAt)
  {
    SameColumnsSameOrder(after, before.(quoteAmount := Some(save.quoteAmount), updatedAt := after.updatedAt));
  }

  /** The stored quote of a create request: the schema's default 0.0 when the key is left out. */
  function CreatedQuote(q: SentQuote): (r: Option<real>)
    ensures q.QuoteAbsent? ==> r == Some(0.0)
    ensures q.QuoteNull? <==> r.None?
    ensures q.QuoteSent? ==> r == Some(q.amount)
  {
    match q
    case QuoteAbsent => Some(0.0)
    case QuoteNull => None
    case QuoteSent(amount) => Some(amount)
  }

  /** The order a create request produces: the sent or default quote, both timestamps `now`, the stops as sent. */
  function NewOrder(id: nat, req: TripCreate, weight: real, stops: seq<Stop>, now: int): Trip {
    Trip(id, req.customerId, req.pickupLocation, req.deliveryLocation, req.pickupDate,
         req.deliveryDate, req.cargoType, weight, req.optional, CreatedQuote(req.quoteAmount),
         req.status, now, now, stops)
  }

  /**
    The `setattr` loop over the sent fields, in whatever order they come:
    afterwards each sent column holds its value and every other column, the
    stops, the ids and the timestamps are as before.
   */
  method ApplyFields(before: Trip, fields: map<Column, Value>) returns (o: Trip)
    requires forall c :: c in fields ==> Storable(c, fields[c])
    ensures forall c :: Get(o, c) == if c in fields then fields[c] else Get(before, c)
    ensures o.id == before.id && o.customerId == before.customerId && o.stops == before.stops
    ensures o.createdAt == before.createdAt && o.updatedAt == before.updatedAt
  {
    o := before;
    var pending := fields.Keys;
    while pending != {}
      invariant pending <= fields.Keys
      invariant forall c :: Get(o, c) == if c in fields && c !in pending then fields[c] else Get(before, c)
      invariant o.id == before.id && o.customerId == before.customerId && o.stops == before.stops
      invariant o.createdAt == before.createdAt && o.updatedAt == before.updatedAt
      decreases pending
    {
      var c :| c in pending;
      o := Set(o, c, fields[c]);
      pending := pending - {c};
    }
  }

  /**
    The body of `update_order` between the lookup and the commit: the sent
    fields, then the stops when a list was sent, then the update time when
    some column changed.
   */
  method ApplyUpdate(before: Trip, u: OrderUpdate, now: int) returns (o: Trip)
    requires UpdateWellTyped(u) && !ClearsRequired(u)
    ensures AppliedUpdate(before, u, o, now)
    ensures o.id == before.id
  {
    assert forall c :: c in u.fields ==> Storable(c, u.fields[c]);
    o := ApplyFields(before, u.fields);
    if u.stops.Some? {
      o := o.(stops := u.stops.value);
    }
    if ChangesSomething(before, u) {
      o := o.(updatedAt := now);
    }
  }

  /** Removing position `i` shifts every later element down by one. */
  lemma RemoveAtShifts<T>(s: seq<T>, i: nat)
    requires i < |s|
    ensures |s[..i] + s[i + 1..]| == |s| - 1
    ensures forall j :: 0 <= j < |s| - 1 ==> (s[..i] + s[i + 1..])[j] == if j < i then s[j] else s[j + 1]
  {
  }

  class Store {
    var orders: seq<Trip>
    var customerIds: set<int>
    var nextId: nat

    /** Ids are positive, below the next id to hand out, and never shared. */
    ghost predicate Valid()
      reads this
    {
      && nextId >= 1
      && (forall i :: 0 <= i < |orders| ==> 1 <= orders[i].id < nextId)
      && (forall i, j :: 0 <= i < j < |orders| ==> orders[i].id != orders[j].id)
    }

    predicate Has(id: int)
      reads this
    {
      exists i :: 0 <= i < |orders| && orders[i].id == id
    }

    constructor (customerIds: set<int>)
      ensures Valid() && orders == [] && this.customerIds == customerIds && nextId == 1
    {
      orders := [];
      this.customerIds := customerIds;
      nextId := 1;
    }

    /** `.filter(Order.id == id).first()`: the position of the order with the id, if any. */
    method Find(id: int) returns (k: Option<nat>)
      ensures k.Some? ==> k.value < |orders| && orders[k.value].id == id
      ensures k.None? <==> !Has(id)
    {
      for i := 0 to |orders|
        invariant forall j :: 0 <= j < i ==> orders[j].id != id
      {
        if orders[i].id == id {
          return Some(i);
        }
      }
      return None;
    }

    /** `GET /api/orders`: validate, filter, count, sort, then cut out the requested page. */
    method GetOrders(q: ListQuery) returns (r: Result<OrderPage, ApiError>)
      ensures r.Err? <==> !ValidQuery(q)
      ensures r.Err? ==> r.error == Unprocessable
      ensures r.Ok? ==>
                var matching := MatchingOrders(orders, q);
                && r.value.total == |matching|
                && r.value.orders == PageSlice(SortedOrders(matching, q), q.page, q.limit)
                && r.value.totalPages == CeilDiv(|matching|, q.limit)
                && r.value.page == q.page && r.value.limit == q.limit
    {
      if !ValidQuery(q) {
        return Err(Unprocessable);
      }
      var query := orders;
      ghost var kept: Trip -> bool := (o: Trip) => true;
      FilterKeepsAll(orders, kept);
      if Given(q.search) {
        var term := q.search.value;
        var p := (o: Trip) => SearchMatches(o, term);
        ghost var both := (o: Trip) => kept(o) && p(o);
        FilterFilter(orders, kept, p, both);
        query := Filter(query, p);
        kept := both;
      }
      if Given(q.status) {
        var status := q.status.value;
        var p := (o: Trip) => o.status == status;
        ghost var both := (o: Trip) => kept(o) && p(o);
        FilterFilter(orders, kept, p, both);
        query := Filter(query, p);
        kept := both;
      }
      if q.customerId.Some? && q.customerId.value != 0 {
        var customer := q.customerId.value;
        var p := (o: Trip) => o.customerId == customer;
        ghost var both := (o: Trip) => kept(o) && p(o);
        FilterFilter(orders, kept, p, both);
        query := Filter(query, p);
        kept := both;
      }
      FilterCongruent(orders, kept, MatchesQuery(q));
      var total := |query|;
      var sorted := SortedOrders(query, q);
      var items := PageSlice(sorted, q.page, q.limit);
      r := Ok(OrderPage(items, total, q.page, q.limit, CeilDiv(total, q.limit)));
    }

    /** `GET /api/orders/{id}`: the order, or 404. */
    method GetOrder(id: int) returns (r: Result<Trip, ApiError>)
      ensures r.Err? <==> !Has(id)
      ensures r.Err? ==> r.error == NotFound
      ensures r.Ok? ==> r.value in orders && r.value.id == id
    {
      var k := Find(id);
      if k.None? {
        return Err(NotFound);
      }
      return Ok(orders[k.value]);
    }

    /**
      `POST /api/orders`. A cleared weight is JSON null and fails the schema; an
      unknown customer raises 404 inside the handler's `try`, which turns it
      into 400. Otherwise the order gets the next id, the sent quote (0 when
      the key is left out) and the stops copied one by one.
     */
    method CreateOrder(req: TripCreate, now: int) returns (r: Result<Trip, ApiError>)
      requires Valid()
      modifies this`orders, this`nextId
      ensures Valid()
      ensures req.weight.NaN? ==> r == Err(Unprocessable)
      ensures req.weight.Finite? && req.customerId !in customerIds ==> r == Err(BadRequest)
      ensures r.Err? ==> orders == old(orders) && nextId == old(nextId)
      ensures req.weight.Finite? && req.customerId in customerIds ==>
                && r == Ok(NewOrder(old(nextId), req, req.weight.value, req.stops, now))
                && orders == old(orders) + [r.value]
                && nextId == old(nextId) + 1
                && !old(Has(r.value.id)) && Has(r.value.id)
    {
      if req.weight.NaN? {
        return Err(Unprocessable);
      }
      if req.customerId !in customerIds {
        return Err(BadRequest);
      }
      var stored: seq<Stop> := [];
      for i := 0 to |req.stops|
        invariant stored == req.stops[..i]
      {
        stored := stored + [req.stops[i]];
      }
      assert stored == req.stops;
      var order := NewOrder(nextId, req, req.weight.value, stored, now);
      orders := orders + [order];
      nextId := nextId + 1;
      assert orders[|orders| - 1].id == order.id;
      r := Ok(order);
    }

    /**
      `PUT /api/orders/{id}`. A value of the wrong type fails the schema (422).
      A missing order raises 404 inside the `try` and becomes 400; so does a
      null for a NOT NULL column, which the database refuses at commit, and the
      rollback leaves the store as it was. Otherwise the sent fields are set
      one by one, the stops are replaced when a list was sent, and no other
      order changes.
     */
    method UpdateOrder(id: int, u: OrderUpdate, now: int) returns (r: Result<Trip, ApiError>)
      requires Valid()
      modifies this`orders
      ensures Valid()
      ensures !UpdateWellTyped(u) ==> r == Err(Unprocessable)
      ensures UpdateWellTyped(u) && (!old(Has(id)) || ClearsRequired(u)) ==> r == Err(BadRequest)
      ensures r.Err? ==> orders == old(orders)
      ensures UpdateWellTyped(u) && old(Has(id)) && !ClearsRequired(u) ==> r.Ok?
      ensures r.Ok? ==>
                exists k :: 0 <= k < |old(orders)| && old(orders)[k].id == id
                            && orders == old(orders)[k := r.value]
                            && AppliedUpdate(old(orders)[k], u, r.value, now)
    {
      if !UpdateWellTyped(u) {
        return Err(Unprocessable);
      }
      var k := Find(id);
      if k.None? || ClearsRequired(u) {
        return Err(BadRequest);
      }
      var o := ApplyUpdate(orders[k.value], u, now);
      ghost var previous := orders;
      orders := orders[k.value := o];
      assert forall i :: 0 <= i < |orders| ==> orders[i].id == previous[i].id;
      assert previous[k.value].id == id;
      r := Ok(o);
    }

    /** `DELETE /api/orders/{id}`: 404 for an unknown id, otherwise that order and its stops go. */
    method DeleteOrder(id: int) returns (r: Result<(), ApiError>)
      requires Valid()
      modifies this`orders
      ensures Valid()
      ensures r.Err? <==> !old(Has(id))
      ensures r.Err? ==> r.error == NotFound && orders == old(orders)
      ensures r.Ok? ==>
                exists k :: 0 <= k < |old(orders)| && old(orders)[k].id == id
                            && orders == old(orders)[..k] + old(orders)[k + 1..]
      ensures !Has(id)
    {
      var k := Find(id);
      if k.None? {
        return Err(NotFound);
      }
      var i := k.value;
      ghost var before := orders;
      orders := orders[..i] + orders[i + 1..];
      RemoveAtShifts(before, i);
      assert before[i].id == id;
      r := Ok(());
    }
  }
}
