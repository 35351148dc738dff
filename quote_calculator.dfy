/**
  The quote calculator of the trip detail panel: a base rate per mile times
  the miles, plus a list of accessory charges, plus a profit margin that is
  either a percentage of that subtotal or a flat amount. Money is an exact
  real.
 */
module QuoteCalculator {
  import opened Wrappers
  import opened Numbers
  import opened Seqs

  /** An accessory line; `category` is "" until one is chosen. */
  datatype Accessory = Accessory(id: int, category: string, cost: real)

  /** The two fields `updateAccessory` can set, with the new value. */
  datatype AccessoryEdit = SetCategory(category: string) | SetCost(cost: real)

  datatype MarginType = Percentage | Flat

  /** The figures the quote summary shows. */
  datatype QuoteBreakdown = QuoteBreakdown(
    baseCost: real,
    accessoriesCost: real,
    subtotal: real,
    marginAmount: real,
    totalCost: real)

  /** The update a successful "Get Quote" click sends for the trip. */
  datatype QuoteSave = QuoteSave(tripId: nat, quoteAmount: real)

  /** The sum of the accessory costs, added up from the first line to the last. */
  function AccessoriesCost(items: seq<Accessory>): real {
    if items == [] then 0.0
    else AccessoriesCost(items[..|items| - 1]) + items[|items| - 1].cost
  }

  function MarginAmount(kind: MarginType, subtotal: real, percentage: real, flat: real): real {
    match kind
    case Percentage => subtotal * percentage / 100.0
    case Flat => flat
  }

  /**
    The breakdown for the calculator's inputs. The summary lines add up: the
    total is the base cost plus the accessories plus the margin.
   */
  function ComputeBreakdown(rate: real, miles: real, items: seq<Accessory>,
                            kind: MarginType, percentage: real, flat: real): (b: QuoteBreakdown)
    ensures b.baseCost == rate * miles
    ensures b.accessoriesCost == AccessoriesCost(items)
    ensures b.subtotal == b.baseCost + b.accessoriesCost
    ensures b.totalCost == b.baseCost + b.accessoriesCost + b.marginAmount
    ensures kind == Percentage ==> b.marginAmount == b.subtotal * percentage / 100.0
    ensures kind == Flat ==> b.marginAmount == flat
    ensures kind == Percentage ==> b.totalCost == (rate * miles + AccessoriesCost(items)) * (1.0 + percentage / 100.0)
    ensures kind == Flat ==> b.totalCost == rate * miles + AccessoriesCost(items) + flat
  {
    var base := rate * miles;
    var accessories := AccessoriesCost(items);
    var subtotal := base + accessories;
    var margin := MarginAmount(kind, subtotal, percentage, flat);
    QuoteBreakdown(base, accessories, subtotal, margin, subtotal + margin)
  }

  /** The sum over two lists placed one after the other. */
  lemma {:induction false} AccessoriesCostConcat(a: seq<Accessory>, b: seq<Accessory>)
    ensures AccessoriesCost(a + b) == AccessoriesCost(a) + AccessoriesCost(b)
    decreases |b|
  {
    if b == [] {
      assert a + b == a;
    } else {
      var ab := a + b;
      assert ab[..|ab| - 1] == a + b[..|b| - 1];
      AccessoriesCostConcat(a, b[..|b| - 1]);
    }
  }

  /** The order of the lines has no effect on the sum: only which lines there are counts. */
  lemma {:induction false} AccessoriesCostPermutation(a: seq<Accessory>, b: seq<Accessory>)
    requires multiset(a) == multiset(b)
    ensures AccessoriesCost(a) == AccessoriesCost(b)
    decreases |a|
  {
    if a == [] {
      assert |b| == |multiset(b)| == 0;
    } else {
      var n := |a| - 1;
      var x := a[n];
      assert x in multiset(b) by {
        assert x in a;
      }
      var j :| 0 <= j < |b| && b[j] == x;
      var rest := b[..j] + b[j + 1..];
      MultisetWithout(a, n);
      MultisetWithout(b, j);
      assert a[..n] + a[n + 1..] == a[..n];
      AccessoriesCostPermutation(a[..n], rest);
      RemoveLineCost(a, n);
      RemoveLineCost(b, j);
    }
  }

  /** Leaving out position `j` takes one copy of that element out of the multiset. */
  lemma MultisetWithout<T>(s: seq<T>, j: nat)
    requires j < |s|
    ensures multiset(s[..j] + s[j + 1..]) == multiset(s) - multiset{s[j]}
  {
    assert s == s[..j] + [s[j]] + s[j + 1..];
  }

  lemma {:induction false} AccessoriesCostNonNegative(items: seq<Accessory>)
    requires forall i :: 0 <= i < |items| ==> items[i].cost >= 0.0
    ensures AccessoriesCost(items) >= 0.0
  {
    if items != [] {
      AccessoriesCostNonNegative(items[..|items| - 1]);
    }
  }

  /** With non-negative inputs the quoted total is never negative. */
  lemma TotalNonNegative(rate: real, miles: real, items: seq<Accessory>,
                         kind: MarginType, percentage: real, flat: real)
    requires rate >= 0.0 && miles >= 0.0
    requires forall i :: 0 <= i < |items| ==> items[i].cost >= 0.0
    requires kind == Percentage ==> percentage >= 0.0
    requires kind == Flat ==> flat >= 0.0
    ensures ComputeBreakdown(rate, miles, items, kind, percentage, flat).totalCost >= 0.0
  {
    AccessoriesCostNonNegative(items);
    var b := ComputeBreakdown(rate, miles, items, kind, percentage, flat);
    assert b.baseCost >= 0.0 by {
      assert rate * miles >= 0.0 * miles;
    }
    if kind == Percentage {
      assert b.subtotal * percentage >= 0.0 * percentage;
    }
  }

  /**
    Raising one line's cost never lowers the quoted total, as long as a
    percentage margin is not below -100%: the total moves by the cost
    difference scaled by the margin factor, or by the difference itself
    under a flat margin.
   */
  lemma RaisingCostRaisesTotal(rate: real, miles: real, items: seq<Accessory>, k: nat, cost: real,
                               kind: MarginType, percentage: real, flat: real)
    requires DistinctIds(items) && k < |items| && cost >= items[k].cost
    requires kind == Percentage ==> percentage >= -100.0
    ensures ComputeBreakdown(rate, miles, Updated(items, items[k].id, SetCost(cost)), kind, percentage, flat).totalCost
         >= ComputeBreakdown(rate, miles, items, kind, percentage, flat).totalCost
  {
    UpdateCostMovesSum(items, k, cost);
    TotalMonotone(rate, miles, items, Updated(items, items[k].id, SetCost(cost)), kind, percentage, flat);
  }

  /** A larger accessories sum never gives a smaller total, unless the percentage is below -100%. */
  lemma TotalMonotone(rate: real, miles: real, a: seq<Accessory>, b: seq<Accessory>,
                      kind: MarginType, percentage: real, flat: real)
    requires AccessoriesCost(a) <= AccessoriesCost(b)
    requires kind == Percentage ==> percentage >= -100.0
    ensures ComputeBreakdown(rate, miles, a, kind, percentage, flat).totalCost
         <= ComputeBreakdown(rate, miles, b, kind, percentage, flat).totalCost
  {
    var before := ComputeBreakdown(rate, miles, a, kind, percentage, flat);
    var after := ComputeBreakdown(rate, miles, b, kind, percentage, flat);
    if kind == Percentage {
      PercentageMonotone(before.subtotal, after.subtotal, percentage);
    }
  }

  /** A subtotal plus its percentage margin grows with the subtotal when the percentage is at least -100. */
  lemma PercentageMonotone(x: real, y: real, percentage: real)
    requires x <= y && percentage >= -100.0
    ensures x + x * percentage / 100.0 <= y + y * percentage / 100.0
  {
    var f := 1.0 + percentage / 100.0;
    assert (y + y * percentage / 100.0) - (x + x * percentage / 100.0) == (y - x) * f;
    assert (y - x) * f >= 0.0;
  }

  /** Only the active margin value matters: the stored inactive one never changes the quote. */
  lemma MarginIgnoresInactiveValue(rate: real, miles: real, items: seq<Accessory>,
                                   percentage: real, percentage': real, flat: real, flat': real)
    ensures ComputeBreakdown(rate, miles, items, Percentage, percentage, flat)
         == ComputeBreakdown(rate, miles, items, Percentage, percentage, flat')
    ensures ComputeBreakdown(rate, miles, items, Flat, percentage, flat)
         == ComputeBreakdown(rate, miles, items, Flat, percentage', flat)
  {
  }

  /** Rate 2.5 over 400 miles, a 150 fuel surcharge and a 10% margin quote 1265. */
  lemma WorkedExample()
    ensures ComputeBreakdown(2.5, 400.0, [Accessory(1, "Fuel Surcharge", 150.0)], Percentage, 10.0, 0.0)
         == QuoteBreakdown(1000.0, 150.0, 1150.0, 115.0, 1265.0)
  {
    var items := [Accessory(1, "Fuel Surcharge", 150.0)];
    assert items[..0] == [];
  }

  /** No two lines share an id. */
  ghost predicate DistinctIds(items: seq<Accessory>) {
    forall i, j :: 0 <= i < j < |items| ==> items[i].id != items[j].id
  }

  function ApplyEdit(a: Accessory, edit: AccessoryEdit): Accessory {
    match edit
    case SetCategory(c) => a.(category := c)
    case SetCost(c) => a.(cost := c)
  }

  /**
    `accessories.map(acc => acc.id === id ? {...acc, [field]: value} : acc)`:
    same length, same ids in the same order; lines with the id get the edit,
    every other line is left as it was.
   */
  function Updated(items: seq<Accessory>, id: int, edit: AccessoryEdit): (r: seq<Accessory>)
    ensures |r| == |items|
    ensures forall i :: 0 <= i < |items| ==> r[i].id == items[i].id
    ensures forall i :: 0 <= i < |items| && items[i].id == id ==> r[i] == ApplyEdit(items[i], edit)
    ensures forall i :: 0 <= i < |items| && items[i].id != id ==> r[i] == items[i]
  {
    if items == [] then []
    else
      [if items[0].id == id then ApplyEdit(items[0], edit) else items[0]] + Updated(items[1..], id, edit)
  }

  /** Editing an id that no line has changes nothing. */
  lemma UpdateUnknownIdIsNoOp(items: seq<Accessory>, id: int, edit: AccessoryEdit)
    requires forall i :: 0 <= i < |items| ==> items[i].id != id
    ensures Updated(items, id, edit) == items
  {
  }

  /** Setting the cost of line `k` moves the sum by the difference of the costs. */
  lemma UpdateCostMovesSum(items: seq<Accessory>, k: nat, cost: real)
    requires DistinctIds(items) && k < |items|
    ensures AccessoriesCost(Updated(items, items[k].id, SetCost(cost)))
         == AccessoriesCost(items) - items[k].cost + cost
  {
    UpdatedEditsOneLine(items, k, SetCost(cost));
    ReplaceLineCost(items, k, items[k].(cost := cost));
  }

  /** With distinct ids, editing the id of line `k` edits that line alone. */
  lemma UpdatedEditsOneLine(items: seq<Accessory>, k: nat, edit: AccessoryEdit)
    requires DistinctIds(items) && k < |items|
    ensures Updated(items, items[k].id, edit) == items[..k] + [ApplyEdit(items[k], edit)] + items[k + 1..]
  {
    var r := Updated(items, items[k].id, edit);
    var t := items[..k] + [ApplyEdit(items[k], edit)] + items[k + 1..];
    assert |r| == |t|;
    forall i | 0 <= i < |r|
      ensures r[i] == t[i]
    {
      if i != k {
        assert items[i].id != items[k].id;
      }
    }
  }

  /** Replacing line `k` by `a` moves the sum by the difference of their costs. */
  lemma ReplaceLineCost(items: seq<Accessory>, k: nat, a: Accessory)
    requires k < |items|
    ensures AccessoriesCost(items[..k] + [a] + items[k + 1..]) == AccessoriesCost(items) - items[k].cost + a.cost
  {
    assert items == items[..k] + [items[k]] + items[k + 1..];
    AccessoriesCostConcat(items[..k] + [items[k]], items[k + 1..]);
    AccessoriesCostConcat(items[..k], [items[k]]);
    AccessoriesCostConcat(items[..k] + [a], items[k + 1..]);
    AccessoriesCostConcat(items[..k], [a]);
    assert [items[k]][..0] == [] && [a][..0] == [];
  }

  /** `accessories.filter(acc => acc.id !== id)` */
  function Without(items: seq<Accessory>, id: int): seq<Accessory> {
    Filter(items, (a: Accessory) => a.id != id)
  }

  /** With distinct ids, deleting the id of line `k` removes exactly that line. */
  lemma WithoutRemovesOneLine(items: seq<Accessory>, k: nat)
    requires DistinctIds(items) && k < |items|
    ensures Without(items, items[k].id) == items[..k] + items[k + 1..]
  {
    var id := items[k].id;
    var p := (a: Accessory) => a.id != id;
    assert items == items[..k] + ([items[k]] + items[k + 1..]);
    FilterConcat(items[..k], [items[k]] + items[k + 1..], p);
    FilterConcat([items[k]], items[k + 1..], p);
    FilterKeepsAll(items[..k], p);
    FilterKeepsAll(items[k + 1..], p);
  }

  /** Deleting an id that no line has changes nothing. */
  lemma WithoutUnknownIdIsNoOp(items: seq<Accessory>, id: int)
    requires forall i :: 0 <= i < |items| ==> items[i].id != id
    ensures Without(items, id) == items
  {
    FilterKeepsAll(items, (a: Accessory) => a.id != id);
  }

  /** Deleting line `k` lowers the accessories sum by its cost. */
  lemma DeleteLowersSum(items: seq<Accessory>, k: nat)
    requires DistinctIds(items) && k < |items|
    ensures AccessoriesCost(Without(items, items[k].id)) == AccessoriesCost(items) - items[k].cost
  {
    WithoutRemovesOneLine(items, k);
    RemoveLineCost(items, k);
  }

  /** Leaving out line `k` lowers the sum by its cost. */
  lemma RemoveLineCost(items: seq<Accessory>, k: nat)
    requires k < |items|
    ensures AccessoriesCost(items[..k] + items[k + 1..]) == AccessoriesCost(items) - items[k].cost
  {
    var before, line, after := items[..k], [items[k]], items[k + 1..];
    assert items == before + line + after;
    AccessoriesCostConcat(before + line, after);
    AccessoriesCostConcat(before, line);
    AccessoriesCostConcat(before, after);
    assert line[..0] == [];
  }

  /**
    The calculator's session state for the trip the panel shows, `None` while
    no trip is selected. The id counter only grows while the same trip is
    shown; `issued` records every id handed out in this session, so a deleted
    id is never handed out again.
   */
  class QuoteSession {
    var tripId: Option<nat>
    var baseRatePerMile: real
    var miles: real
    var accessories: seq<Accessory>
    var marginType: MarginType
    var marginPercentage: real
    var marginFlatAmount: real
    var nextAccessoryId: int
    var isSaving: bool
    ghost var issued: set<int>

    ghost predicate Valid()
      reads this
    {
      && nextAccessoryId >= 1
      && (forall id :: id in issued <==> 1 <= id < nextAccessoryId)
      && (forall i :: 0 <= i < |accessories| ==> accessories[i].id in issued)
      && DistinctIds(accessories)
    }

    /** The breakdown the panel shows for the current inputs. */
    function Quote(): QuoteBreakdown
      reads this
    {
      ComputeBreakdown(baseRatePerMile, miles, accessories, marginType, marginPercentage, marginFlatAmount)
    }

    /** The state the reset effect leaves behind, apart from `isSaving`. */
    ghost predicate Fresh()
      reads this
    {
      && baseRatePerMile == 0.0 && miles == 0.0 && accessories == []
      && marginType == Percentage && marginPercentage == 0.0 && marginFlatAmount == 0.0
      && nextAccessoryId == 1 && issued == {}
    }

    /** The page starts with no trip selected. */
    constructor ()
      ensures Valid() && Fresh() && !isSaving && tripId == None
    {
      tripId := None;
      baseRatePerMile, miles, accessories := 0.0, 0.0, [];
      marginType, marginPercentage, marginFlatAmount := Percentage, 0.0, 0.0;
      nextAccessoryId, isSaving := 1, false;
      issued := {};
    }

    /**
      The reset effect, keyed on `trip?.id`: whenever the selected trip's id
      (or its absence) differs from the one before, every calculator input is
      reset; the saving flag is not touched.
     */
    method Select(selected: Option<nat>)
      requires Valid()
      modifies this
      ensures Valid() && tripId == selected && isSaving == old(isSaving)
      ensures selected != old(tripId) ==> Fresh()
      ensures selected == old(tripId) ==> Quote() == old(Quote()) && nextAccessoryId == old(nextAccessoryId)
                                          && issued == old(issued)
      ensures selected == old(tripId) ==> unchanged(this)
    {
      if selected != tripId {
        baseRatePerMile, miles, accessories := 0.0, 0.0, [];
        marginType, marginPercentage, marginFlatAmount := Percentage, 0.0, 0.0;
        nextAccessoryId := 1;
        issued := {};
      }
      tripId := selected;
    }

    /**
      The panel is given a trip: a click on a row, or the refreshed copy of the
      shown trip after a quote was saved. A trip other than the shown one
      (including any trip after the panel was closed) starts from a reset
      calculator; the refreshed copy keeps the quote.
     */
    method ShowTrip(id: nat)
      requires Valid()
      modifies this
      ensures Valid() && tripId == Some(id) && isSaving == old(isSaving)
      ensures old(tripId) != Some(id) ==> Fresh()
      ensures old(tripId) == Some(id) ==> Quote() == old(Quote()) && nextAccessoryId == old(nextAccessoryId)
                                          && issued == old(issued)
      ensures old(tripId) == Some(id) ==> unchanged(this)
    {
      Select(Some(id));
    }

    /**
      Closing the panel (its close button or the overlay) sets the selected
      trip to null, which also fires the reset: reopening the same trip shows
      an empty calculator. The close button and the overlay exist only while
      a trip is shown.
     */
    method Close()
      requires Valid() && tripId.Some?
      modifies this
      ensures Valid() && tripId == None && Fresh() && isSaving == old(isSaving)
    {
      Select(None);
    }

    /** `addAccessory`: one empty line with a never-issued id at the end; the quote stays the same. */
    method AddAccessory()
      requires Valid()
      modifies this
      ensures Valid()
      ensures accessories == old(accessories) + [Accessory(old(nextAccessoryId), "", 0.0)]
      ensures nextAccessoryId == old(nextAccessoryId) + 1
      ensures old(nextAccessoryId) !in old(issued) && issued == old(issued) + {old(nextAccessoryId)}
      ensures Quote() == old(Quote())
      ensures baseRatePerMile == old(baseRatePerMile) && miles == old(miles)
      ensures marginType == old(marginType) && marginPercentage == old(marginPercentage)
      ensures marginFlatAmount == old(marginFlatAmount)
      ensures tripId == old(tripId) && isSaving == old(isSaving)
    {
      var line := Accessory(nextAccessoryId, "", 0.0);
      assert (accessories + [line])[..|accessories|] == accessories;
      accessories := accessories + [line];
      issued := issued + {nextAccessoryId};
      nextAccessoryId := nextAccessoryId + 1;
    }

    /** `updateAccessory`: the lines carrying `id` get the edit; nothing else changes. */
    method UpdateAccessory(id: int, edit: AccessoryEdit)
      requires Valid()
      modifies this
      ensures Valid()
      ensures accessories == Updated(old(accessories), id, edit)
      ensures nextAccessoryId == old(nextAccessoryId) && issued == old(issued)
      ensures baseRatePerMile == old(baseRatePerMile) && miles == old(miles)
      ensures marginType == old(marginType) && marginPercentage == old(marginPercentage)
      ensures marginFlatAmount == old(marginFlatAmount)
      ensures tripId == old(tripId) && isSaving == old(isSaving)
    {
      accessories := Updated(accessories, id, edit);
    }

    /** The cost input of the line `id`: `updateAccessory(id, 'cost', parseFloat(text) || 0)`. */
    method SetAccessoryCost(id: int, text: string)
      requires Valid()
      modifies this
      ensures Valid()
      ensures accessories == Updated(old(accessories), id, SetCost(Coerce(text)))
      ensures nextAccessoryId == old(nextAccessoryId) && issued == old(issued)
      ensures baseRatePerMile == old(baseRatePerMile) && miles == old(miles)
      ensures marginType == old(marginType) && marginPercentage == old(marginPercentage)
      ensures marginFlatAmount == old(marginFlatAmount)
      ensures tripId == old(tripId) && isSaving == old(isSaving)
    {
      UpdateAccessory(id, SetCost(Coerce(text)));
    }

    /** `deleteAccessory`: the line with `id` is dropped, the rest keep their order; the counter stays. */
    method DeleteAccessory(id: int)
      requires Valid()
      modifies this
      ensures Valid()
      ensures accessories == Without(old(accessories), id)
      ensures nextAccessoryId == old(nextAccessoryId) && issued == old(issued)
      ensures baseRatePerMile == old(baseRatePerMile) && miles == old(miles)
      ensures marginType == old(marginType) && marginPercentage == old(marginPercentage)
      ensures marginFlatAmount == old(marginFlatAmount)
      ensures tripId == old(tripId) && isSaving == old(isSaving)
    {
      if k :| 0 <= k < |accessories| && accessories[k].id == id {
        WithoutRemovesOneLine(accessories, k);
      } else {
        WithoutUnknownIdIsNoOp(accessories, id);
      }
      accessories := Without(accessories, id);
    }

    /** The rate input: `parseFloat(text) || 0`. */
    method SetBaseRate(text: string)
      requires Valid()
      modifies this`baseRatePerMile
      ensures Valid() && baseRatePerMile == Coerce(text)
    {
      baseRatePerMile := Coerce(text);
    }

    /** The miles input: `parseFloat(text) || 0`. */
    method SetMiles(text: string)
      requires Valid()
      modifies this`miles
      ensures Valid() && miles == Coerce(text)
    {
      miles := Coerce(text);
    }

    /** Switching the margin kind keeps both stored values, so switching back restores the margin. */
    method SetMarginType(kind: MarginType)
      requires Valid()
      modifies this`marginType
      ensures Valid() && marginType == kind
      ensures Quote() == ComputeBreakdown(baseRatePerMile, miles, accessories, kind,
                                          marginPercentage, marginFlatAmount)
    {
      marginType := kind;
    }

    method SetMarginPercentage(text: string)
      requires Valid()
      modifies this`marginPercentage
      ensures Valid() && marginPercentage == Coerce(text)
    {
      marginPercentage := Coerce(text);
    }

    method SetMarginFlat(text: string)
      requires Valid()
      modifies this`marginFlatAmount
      ensures Valid() && marginFlatAmount == Coerce(text)
    {
      marginFlatAmount := Coerce(text);
    }

    /**
      A click on "Get Quote". The button is disabled while a save is in flight
      and while the total is exactly 0, and the handler returns at once when
      no trip is selected; otherwise the click raises the saving flag and sends
      the total as the trip's quote.
     */
    method ClickGetQuote() returns (save: Option<QuoteSave>)
      requires Valid()
      modifies this`isSaving
      ensures Valid()
      ensures old(isSaving) || Quote().totalCost == 0.0 || tripId.None? ==> save == None && isSaving == old(isSaving)
      ensures !old(isSaving) && Quote().totalCost != 0.0 && tripId.Some? ==>
                save == Some(QuoteSave(tripId.value, Quote().totalCost)) && isSaving
    {
      if isSaving || Quote().totalCost == 0.0 || tripId.None? {
        save := None;
      } else {
        isSaving := true;
        save := Some(QuoteSave(tripId.value, Quote().totalCost));
      }
    }

    /** The `finally` of the save: the flag clears whether the update succeeded or failed. */
    method SaveSettled()
      requires Valid()
      modifies this`isSaving
      ensures Valid() && !isSaving
    {
      isSaving := false;
    }
  }
}
