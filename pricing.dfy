/**
 * The price breakdown the booking wizard recomputes on every render
 * (`calculateTotalPrice`): day count, car cost, add-on cost and total.
 * Dates are day numbers; `None` stands for an empty date input.
 */
module Pricing {
  import opened Wrappers
  import opened Seqs
  import opened MockData
  import opened FacilityToggle

  datatype Breakdown = Breakdown(days: int, carPrice: int, facilitiesPrice: int, total: int)

  /**
   * Rental days: 1 while either date is empty, otherwise the whole-day
   * difference end - start, with no minimum and no check that end >= start.
   */
  function DayCount(start: Option<int>, end: Option<int>): int
  {
    if start.Some? && end.Some? then end.value - start.value else 1
  }

  /** The price one selected id adds: the add-on's price, or 0 for an unknown id. */
  function PriceOf(id: string): (p: int)
    ensures p >= 0
  {
    FacilitiesWellFormed();
    match FacilityById(id)
    case Some(f) => f.price
    case None => 0
  }

  /** An id of the add-on list adds that add-on's price; any other id adds 0. */
  lemma PriceOfCatalog(id: string)
    ensures (forall f | f in OptionalFacilities :: f.id != id) ==> PriceOf(id) == 0
    ensures forall f | f in OptionalFacilities && f.id == id :: PriceOf(id) == f.price
  {
    forall f | f in OptionalFacilities && f.id == id ensures PriceOf(id) == f.price {
      FacilityByIdFindsEach(f);
    }
  }

  /** `selectedFacilities.reduce((total, id) => total + price of id, 0)`, folded from the left. */
  function FacilitiesPrice(selected: seq<string>): (sum: int)
    ensures sum >= 0
  {
    if selected == [] then 0
    else FacilitiesPrice(selected[..|selected| - 1]) + PriceOf(selected[|selected| - 1])
  }

  /** The breakdown shown in the summary, on the pay button and on the confirmation. */
  function Quote(pricePerDay: int, start: Option<int>, end: Option<int>, selected: seq<string>): (b: Breakdown)
    ensures b.days == DayCount(start, end) && b.facilitiesPrice == FacilitiesPrice(selected)
    ensures b.total == b.carPrice + b.facilitiesPrice
    ensures b.carPrice == pricePerDay * b.days
    ensures b.facilitiesPrice >= 0
  {
    var days := DayCount(start, end);
    var carPrice := pricePerDay * days;
    var facilitiesPrice := FacilitiesPrice(selected);
    Breakdown(days, carPrice, facilitiesPrice, carPrice + facilitiesPrice)
  }

  /** The cases of the day count: the empty-date fallback, same day, backwards range, forwards range. */
  lemma DayCountCases(start: Option<int>, end: Option<int>)
    ensures start.None? || end.None? ==> DayCount(start, end) == 1
    ensures start.Some? && end.Some? && start.value == end.value ==> DayCount(start, end) == 0
    ensures start.Some? && end.Some? && end.value < start.value ==> DayCount(start, end) < 0
    ensures start.Some? && end.Some? ==> (DayCount(start, end) > 0 <==> end.value > start.value)
  {
  }

  lemma {:induction false} FacilitiesPriceAppend(a: seq<string>, b: seq<string>)
    ensures FacilitiesPrice(a + b) == FacilitiesPrice(a) + FacilitiesPrice(b)
  {
    if b == [] {
      assert a + b == a;
    } else {
      var n := |b| - 1;
      assert (a + b)[..|a + b| - 1] == a + b[..n];
      assert (a + b)[|a + b| - 1] == b[n];
      FacilitiesPriceAppend(a, b[..n]);
    }
  }

  lemma FacilitiesPriceSingle(id: string)
    ensures FacilitiesPrice([id]) == PriceOf(id)
  {
    assert [id][..0] == [];
  }

  lemma {:induction false} FacilitiesPriceSplit(before: seq<string>, id: string, after: seq<string>)
    ensures FacilitiesPrice(before + [id] + after) == FacilitiesPrice(before) + PriceOf(id) + FacilitiesPrice(after)
  {
    FacilitiesPriceAppend(before + [id], after);
    FacilitiesPriceAppend(before, [id]);
    FacilitiesPriceSingle(id);
  }

  /** The add-on cost depends only on which ids are selected, how often, not on their order. */
  lemma {:induction false} FacilitiesPricePermutation(a: seq<string>, b: seq<string>)
    requires multiset(a) == multiset(b)
    ensures FacilitiesPrice(a) == FacilitiesPrice(b)
  {
    if a != [] {
      var n := |a| - 1;
      var x := a[n];
      assert a == a[..n] + [x];
      assert x in multiset(b);
      var k :| 0 <= k < |b| && b[k] == x;
      var rest := b[..k] + b[k + 1..];
      assert b == b[..k] + [x] + b[k + 1..];
      assert multiset(b) == multiset(b[..k]) + multiset{x} + multiset(b[k + 1..]);
      assert multiset(rest) == multiset(b[..k]) + multiset(b[k + 1..]);
      assert multiset(a) == multiset(a[..n]) + multiset{x};
      assert multiset(a[..n]) == multiset(a) - multiset{x};
      assert multiset(rest) == multiset(b) - multiset{x};
      FacilitiesPricePermutation(a[..n], rest);
      FacilitiesPriceSplit(b[..k], x, b[k + 1..]);
      FacilitiesPriceAppend(b[..k], b[k + 1..]);
    }
  }

  /** On a duplicate-free selection a toggle adds or subtracts exactly that add-on's price. */
  lemma {:induction false} ToggleAdjustsPrice(s: seq<string>, id: string)
    requires NoDup(s)
    ensures id in s ==> FacilitiesPrice(Toggle(s, id)) == FacilitiesPrice(s) - PriceOf(id)
    ensures id !in s ==> FacilitiesPrice(Toggle(s, id)) == FacilitiesPrice(s) + PriceOf(id)
  {
    if id in s {
      var k :| 0 <= k < |s| && s[k] == id;
      NoDupSplit(s, k);
      var before, after := s[..k], s[k + 1..];
      RemoveSingle(before, id, after);
      FacilitiesPriceSplit(before, id, after);
      FacilitiesPriceAppend(before, after);
    } else {
      FacilitiesPriceAppend(s, [id]);
      FacilitiesPriceSingle(id);
    }
  }

  /** Selecting one more add-on never lowers the total. */
  lemma QuoteMonotoneInSelection(pricePerDay: int, start: Option<int>, end: Option<int>, selected: seq<string>, id: string)
    ensures Quote(pricePerDay, start, end, selected + [id]).total >= Quote(pricePerDay, start, end, selected).total
  {
    FacilitiesPriceAppend(selected, [id]);
    FacilitiesPriceSingle(id);
  }

  /** With a non-negative daily price, a later end date never lowers the total. */
  lemma QuoteMonotoneInDays(pricePerDay: int, start: int, end1: int, end2: int, selected: seq<string>)
    requires pricePerDay >= 0 && end1 <= end2
    ensures Quote(pricePerDay, Some(start), Some(end1), selected).total
         <= Quote(pricePerDay, Some(start), Some(end2), selected).total
  {
    var d1, d2 := end1 - start, end2 - start;
    assert pricePerDay * d2 == pricePerDay * d1 + pricePerDay * (d2 - d1);
    assert pricePerDay * (d2 - d1) >= 0;
  }

  /** Maruti Swift (1200/day) for 3 days with a Driver (add-on "1", 500) costs 3600 + 500 = 4100. */
  lemma SwiftWithDriverScenario(start: int)
    ensures Quote(CarById("1").value.pricePerDay, Some(start), Some(start + 3), ["1"])
         == Breakdown(3, 3600, 500, 4100)
  {
    FacilitiesPriceSingle("1");
    assert CarById("1").value == Cars[0] by {
      CarByIdFindsEach(Cars[0]);
    }
  }

  /**
   * The checkbox view of the add-on cost: walking the add-on list, each add-on
   * whose id is selected contributes its price once.
   */
  function CheckedPrice(fs: seq<Facility>, selected: seq<string>): int
  {
    if fs == [] then 0
    else (if fs[0].id in selected then fs[0].price else 0) + CheckedPrice(fs[1..], selected)
  }

  predicate DistinctIds(fs: seq<Facility>)
  {
    forall i, j :: 0 <= i < j < |fs| ==> fs[i].id != fs[j].id
  }

  lemma {:induction false} CheckedPriceAdd(fs: seq<Facility>, selected: seq<string>, id: string)
    requires id !in selected
    ensures CheckedPrice(fs, selected + [id]) == CheckedPrice(fs, selected) + CheckedPrice(fs, [id])
  {
    if fs != [] {
      CheckedPriceAdd(fs[1..], selected, id);
    }
  }

  lemma {:induction false} CheckedPriceSingle(fs: seq<Facility>, id: string)
    requires DistinctIds(fs)
    ensures (forall f | f in fs :: f.id != id) ==> CheckedPrice(fs, [id]) == 0
    ensures forall f | f in fs && f.id == id :: CheckedPrice(fs, [id]) == f.price
  {
    if fs != [] {
      assert DistinctIds(fs[1..]) by {
        forall i, j | 0 <= i < j < |fs[1..]| ensures fs[1..][i].id != fs[1..][j].id {
          assert fs[1..][i] == fs[i + 1] && fs[1..][j] == fs[j + 1];
        }
      }
      CheckedPriceSingle(fs[1..], id);
      if fs[0].id == id {
        assert forall f | f in fs[1..] :: f.id != id by {
          forall k | 0 <= k < |fs[1..]| ensures fs[1..][k].id != id {
            assert fs[1..][k] == fs[k + 1];
          }
        }
      }
    }
  }

  /**
   * For a duplicate-free selection (what the wizard keeps), the left fold over
   * the selection equals the checkbox view over the add-on list: unknown ids
   * add nothing and the order of selection does not matter.
   */
  lemma {:induction false} FacilitiesPriceIsCheckedPrice(selected: seq<string>)
    requires NoDup(selected)
    ensures FacilitiesPrice(selected) == CheckedPrice(OptionalFacilities, selected)
  {
    if selected == [] {
      CheckedPriceEmpty(OptionalFacilities);
    } else {
      var n := |selected| - 1;
      var x := selected[n];
      NoDupSplit(selected, n);
      assert selected[..n] + [x] + selected[n + 1..] == selected[..n] + [x];
      assert NoDup(selected[..n]);
      FacilitiesPriceIsCheckedPrice(selected[..n]);
      CheckedPriceAdd(OptionalFacilities, selected[..n], x);
      FacilitiesWellFormed();
      CheckedPriceSingle(OptionalFacilities, x);
      PriceOfCatalog(x);
    }
  }

  lemma {:induction false} CheckedPriceEmpty(fs: seq<Facility>)
    ensures CheckedPrice(fs, []) == 0
  {
    if fs != [] {
      CheckedPriceEmpty(fs[1..]);
    }
  }
}
