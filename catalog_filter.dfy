/**
 * The catalog search of the homepage: a stable filter over the car list that
 * keeps a car when it matches the search text, the type filter and the price
 * tier. The city selector is held in the same filter state but never consulted.
 */
module CatalogFilter {
  import opened Wrappers
  import opened MockData

  /** The four selectors of the homepage, as the strings the storefront code compares. */
  datatype Filters = Filters(searchQuery: string, filterType: string, filterCity: string, priceRange: string)

  /** `toLowerCase` on one character (ASCII letters only). */
  function LowerChar(c: char): char
  {
    if 'A' <= c <= 'Z' then (c as int + 32) as char else c
  }

  /** `toLowerCase`, character by character. */
  function ToLower(s: string): string
  {
    seq(|s|, i requires 0 <= i < |s| => LowerChar(s[i]))
  }

  /** `needle` occurs in `hay` starting at position `i`. */
  predicate OccursAt(hay: string, needle: string, i: nat)
  {
    i + |needle| <= |hay| && hay[i..i + |needle|] == needle
  }

  /** `hay.includes(needle)` */
  function Includes(hay: string, needle: string): bool
  {
    if needle <= hay then true
    else if hay == [] then false
    else Includes(hay[1..], needle)
  }

  /** Includes holds exactly when needle occurs in hay at some position. */
  lemma {:induction false} IncludesIffOccurs(hay: string, needle: string)
    ensures Includes(hay, needle) <==> exists i: nat :: OccursAt(hay, needle, i)
  {
    if needle <= hay {
      assert OccursAt(hay, needle, 0);
    } else if hay != [] {
      IncludesIffOccurs(hay[1..], needle);
      forall i: nat ensures OccursAt(hay, needle, i + 1) == OccursAt(hay[1..], needle, i) {
        if i + 1 + |needle| <= |hay| {
          var n := |needle|;
          var inHay, inTail := hay[i + 1..i + 1 + n], hay[1..][i..i + n];
          forall k | 0 <= k < n ensures inHay[k] == inTail[k] {
            assert inHay[k] == hay[i + 1 + k];
          }
          assert inHay == inTail;
        }
      }
      if Includes(hay, needle) {
        var i: nat :| OccursAt(hay[1..], needle, i);
        assert OccursAt(hay, needle, i + 1);
      } else {
        forall i: nat ensures !OccursAt(hay, needle, i) {
          if i > 0 {
            assert !OccursAt(hay[1..], needle, i - 1);
          }
        }
      }
    }
  }

  predicate MatchesSearch(car: Car, query: string)
  {
    Includes(ToLower(car.name), ToLower(query)) || Includes(ToLower(car.model), ToLower(query))
  }

  predicate MatchesType(car: Car, filterType: string)
  {
    filterType == "all" || car.carType == filterType
  }

  predicate MatchesPrice(car: Car, priceRange: string)
  {
    || priceRange == "all"
    || (priceRange == "budget" && car.pricePerDay <= 1500)
    || (priceRange == "mid" && car.pricePerDay > 1500 && car.pricePerDay <= 2500)
    || (priceRange == "premium" && car.pricePerDay > 2500)
  }

  predicate Keep(car: Car, f: Filters)
  {
    MatchesSearch(car, f.searchQuery) && MatchesType(car, f.filterType) && MatchesPrice(car, f.priceRange)
  }

  /** `filteredCars`: the cars that pass all three tests, in catalog order. */
  function FilterCars(cars: seq<Car>, f: Filters): (r: seq<Car>)
    ensures forall c :: c in r <==> c in cars && Keep(c, f)
    ensures |r| <= |cars|
  {
    if cars == [] then []
    else (if Keep(cars[0], f) then [cars[0]] else []) + FilterCars(cars[1..], f)
  }

  /** The Book button of a listed car: the id it hands to `onBookCar`, or None while it is disabled. */
  function BookButton(car: Car): (pressed: Option<string>)
    ensures pressed.Some? <==> car.available
    ensures pressed.Some? ==> pressed.value == car.id
  {
    if car.available then Some(car.id) else None
  }

  /**
   * Every car the homepage lists from the fixture catalog can be booked, and
   * the id its button hands on finds that same car again in the booking flow.
   */
  lemma ListedCarBooks(f: Filters, c: Car)
    requires c in FilterCars(Cars, f)
    ensures BookButton(c) == Some(c.id)
    ensures CarById(c.id) == Some(c)
  {
    CarsWellFormed();
    CarByIdFindsEach(c);
  }

  /** `sub` is obtained from `s` by deleting elements, keeping the order of the rest. */
  predicate IsSubsequence<T(==)>(sub: seq<T>, s: seq<T>)
  {
    if sub == [] then true
    else if s == [] then false
    else (sub[0] == s[0] && IsSubsequence(sub[1..], s[1..])) || IsSubsequence(sub, s[1..])
  }

  /** The result is an order-preserving subsequence of the catalog. */
  lemma {:induction false} FilterIsSubsequence(cars: seq<Car>, f: Filters)
    ensures IsSubsequence(FilterCars(cars, f), cars)
  {
    if cars != [] {
      FilterIsSubsequence(cars[1..], f);
      var rest := FilterCars(cars[1..], f);
      if Keep(cars[0], f) {
        assert ([cars[0]] + rest)[1..] == rest;
      } else {
        assert [] + rest == rest;
      }
    }
  }

  /** A stable filter distributes over concatenation: it decides car by car. */
  lemma {:induction false} FilterAppend(a: seq<Car>, b: seq<Car>, f: Filters)
    ensures FilterCars(a + b, f) == FilterCars(a, f) + FilterCars(b, f)
  {
    if a == [] {
      assert a + b == b;
    } else {
      assert (a + b)[1..] == a[1..] + b;
      FilterAppend(a[1..], b, f);
    }
  }

  /** Each kept car appears as often as in the catalog, each dropped car not at all. */
  lemma {:induction false} FilterCount(cars: seq<Car>, f: Filters, c: Car)
    ensures multiset(FilterCars(cars, f))[c] == if Keep(c, f) then multiset(cars)[c] else 0
  {
    if cars != [] {
      FilterCount(cars[1..], f, c);
      assert cars == [cars[0]] + cars[1..];
    }
  }

  /** The city selector has no effect on the result. */
  lemma {:induction false} FilterIgnoresCity(cars: seq<Car>, f: Filters, city: string)
    ensures FilterCars(cars, f.(filterCity := city)) == FilterCars(cars, f)
  {
    if cars != [] {
      FilterIgnoresCity(cars[1..], f, city);
    }
  }

  /** With an empty query and both selectors on "all", every car is listed, in order. */
  lemma {:induction false} NoFiltersKeepsAll(cars: seq<Car>, city: string)
    ensures FilterCars(cars, Filters("", "all", city, "all")) == cars
  {
    if cars != [] {
      NoFiltersKeepsAll(cars[1..], city);
      assert ToLower("") == "";
      assert cars == [cars[0]] + cars[1..];
    }
  }

  /** The type selector: "all" keeps every car, any other value exactly the cars of that type. */
  lemma TypeSelector(car: Car, filterType: string)
    ensures filterType == "all" ==> MatchesType(car, filterType)
    ensures filterType != "all" ==> (MatchesType(car, filterType) <==> car.carType == filterType)
  {
  }

  /**
   * The price tiers do not overlap and cover every price: budget (at most 1500),
   * mid (above 1500, at most 2500), premium (above 2500); any other range
   * value but "all" keeps nothing.
   */
  lemma PriceTiersPartition(car: Car, range: string)
    ensures MatchesPrice(car, "budget") <==> car.pricePerDay <= 1500
    ensures MatchesPrice(car, "mid") <==> 1500 < car.pricePerDay <= 2500
    ensures MatchesPrice(car, "premium") <==> 2500 < car.pricePerDay
    ensures (if MatchesPrice(car, "budget") then 1 else 0) + (if MatchesPrice(car, "mid") then 1 else 0)
          + (if MatchesPrice(car, "premium") then 1 else 0) == 1
    ensures range != "all" && range != "budget" && range != "mid" && range != "premium" ==> !MatchesPrice(car, range)
  {
  }

  lemma {:induction false} LowerCharIdempotent(c: char)
    ensures LowerChar(LowerChar(c)) == LowerChar(c)
  {
  }

  lemma {:induction false} ToLowerIdempotent(s: string)
    ensures ToLower(ToLower(s)) == ToLower(s)
  {
    var once := ToLower(s);
    forall i | 0 <= i < |s| ensures ToLower(once)[i] == once[i] {
      LowerCharIdempotent(s[i]);
    }
  }

  /** The search is case-insensitive: a query matches as its lower-case form does. */
  lemma SearchIgnoresCase(car: Car, query: string)
    ensures MatchesSearch(car, query) == MatchesSearch(car, ToLower(query))
  {
    ToLowerIdempotent(query);
  }

  /** A needle whose first character does not occur in hay is not included in it. */
  lemma {:induction false} FirstCharAbsent(hay: string, needle: string)
    requires needle != [] && needle[0] !in hay
    ensures !Includes(hay, needle)
  {
    if hay != [] {
      FirstCharAbsent(hay[1..], needle);
    }
  }

  /** Searching "swift" with both selectors on "all" lists exactly the Maruti Swift. */
  lemma SwiftSearch(city: string)
    ensures FilterCars(Cars, Filters("swift", "all", city, "all")) == [MarutiSwift]
  {
    var f := Filters("swift", "all", city, "all");
    var others := Cars[1..];
    OthersDoNotMatchSwift(f);
    FilterNoneKept(others, f);
    assert Cars == [MarutiSwift] + others;
    FilterAppend([MarutiSwift], others, f);
    SwiftKept(f);
  }

  lemma SwiftKept(f: Filters)
    requires f.searchQuery == "swift" && f.filterType == "all" && f.priceRange == "all"
    ensures FilterCars([MarutiSwift], f) == [MarutiSwift]
  {
    SwiftMatchesOnlyFirst();
    assert [MarutiSwift][1..] == [];
  }

  lemma OthersDoNotMatchSwift(f: Filters)
    requires f.searchQuery == "swift"
    ensures forall c | c in Cars[1..] :: !Keep(c, f)
  {
    SwiftMatchesOnlyFirst();
    var others := Cars[1..];
    forall c | c in others ensures !Keep(c, f) {
      var k :| 0 <= k < |others| && others[k] == c;
      assert c == Cars[k + 1];
    }
  }

  lemma {:induction false} FilterNoneKept(cars: seq<Car>, f: Filters)
    requires forall c | c in cars :: !Keep(c, f)
    ensures FilterCars(cars, f) == []
  {
    if cars != [] {
      FilterNoneKept(cars[1..], f);
    }
  }

  /** Of the six catalog cars only the first, the Maruti Swift, matches "swift". */
  lemma SwiftMatchesOnlyFirst()
    ensures MatchesSearch(Cars[0], "swift")
    ensures forall k | 1 <= k < |Cars| :: !MatchesSearch(Cars[k], "swift")
  {
    CarNames();
    LowerSwift();
    assert ToLower("Maruti Swift") == "maruti swift";
    assert Includes("maruti swift", "swift") by {
      assert OccursAt("maruti swift", "swift", 7);
      IncludesIffOccurs("maruti swift", "swift");
    }
    OtherNamesLackS();
    forall k | 1 <= k < |Cars| ensures !MatchesSearch(Cars[k], "swift") {
      NoSwiftIn(Cars[k]);
    }
  }

  predicate LacksS(text: string)
  {
    's' !in text && 'S' !in text
  }

  lemma OtherNamesLackS()
    ensures LacksS("Honda City") && LacksS("Toyota Innova") && LacksS("Hyundai Creta")
    ensures LacksS("Mahindra XUV700") && LacksS("Tata Nexon") && LacksS("2023")
  {
    SedanAndMpvLackS();
    SuvsLackS();
  }

  lemma SedanAndMpvLackS()
    ensures LacksS("Honda City") && LacksS("Toyota Innova") && LacksS("2023")
  {
  }

  lemma SuvsLackS()
    ensures LacksS("Hyundai Creta") && LacksS("Mahindra XUV700") && LacksS("Tata Nexon")
  {
  }

  lemma LowerSwift()
    ensures ToLower("swift") == "swift"
  {
  }

  /** A car without the letter s, in either case, in its name and model does not match "swift". */
  lemma NoSwiftIn(car: Car)
    requires LacksS(car.name) && LacksS(car.model)
    ensures !MatchesSearch(car, "swift")
  {
    LowerSwift();
    FirstCharAbsent(ToLower(car.name), "swift");
    FirstCharAbsent(ToLower(car.model), "swift");
  }
}
