/**
 * The browse page's turf list: the filter over all turfs and the sort
 * chosen by the sort selector (components/browse/TurfGrid.tsx).
 */
module Browse {
  import opened Options
  import opened JsText

  /**
   * A turf as the browse page lists it. `rating` is in tenths of a star
   * (4.8 is 48); `price` is in rupees per hour.
   */
  datatype Turf = Turf(
    id: int,
    name: string,
    location: string,
    sports: seq<string>,
    rating: int,
    price: int,
    amenities: seq<string>)

  /**
   * The sidebar's filters. An empty string, a rating of 0 and an empty
   * amenities list mean "any". `priceRange` is `[min, max]`; a missing
   * bound reads as `undefined`, which no comparison is true of.
   */
  datatype Filters = Filters(
    location: string,
    sport: string,
    priceRange: seq<int>,
    rating: int,
    amenities: seq<string>)

  // ----- The filter (TurfGrid.tsx lines 117-150) -----

  predicate LocationPasses(t: Turf, f: Filters) {
    f.location == "" || t.location == f.location
  }

  predicate SportPasses(t: Turf, f: Filters) {
    f.sport == "" || f.sport in t.sports
  }

  predicate PricePasses(t: Turf, f: Filters) {
    && !(|f.priceRange| > 0 && t.price < f.priceRange[0])
    && !(|f.priceRange| > 1 && t.price > f.priceRange[1])
  }

  predicate RatingPasses(t: Turf, f: Filters) {
    !(f.rating > 0 && t.rating < f.rating)
  }

  /** `wanted.every(a => offered.includes(a))`. */
  function EveryIncluded(wanted: seq<string>, offered: seq<string>): bool {
    |wanted| == 0 || (wanted[0] in offered && EveryIncluded(wanted[1..], offered))
  }

  predicate AmenitiesPass(t: Turf, f: Filters) {
    |f.amenities| == 0 || EveryIncluded(f.amenities, t.amenities)
  }

  /** `sports.some(s => s.toLowerCase().includes(q))`. */
  function SomeSportIncludes(sports: seq<string>, q: string): bool {
    |sports| > 0 && (Includes(Lower(sports[0]), q) || SomeSportIncludes(sports[1..], q))
  }

  predicate SearchPasses(t: Turf, query: string) {
    || query == ""
    || var q := Lower(query);
       Includes(Lower(t.name), q) || Includes(Lower(t.location), q) || SomeSportIncludes(t.sports, q)
  }

  /** The predicate given to `allTurfs.filter`: every check that returns `false` fails. */
  predicate Passes(t: Turf, f: Filters, query: string) {
    && LocationPasses(t, f)
    && SportPasses(t, f)
    && PricePasses(t, f)
    && RatingPasses(t, f)
    && AmenitiesPass(t, f)
    && SearchPasses(t, query)
  }

  /** `allTurfs.filter(turf => Passes(turf, filters, searchQuery))`. */
  function FilterTurfs(all: seq<Turf>, f: Filters, query: string): (r: seq<Turf>)
    ensures |r| <= |all|
  {
    if |all| == 0 then []
    else if Passes(all[0], f, query) then [all[0]] + FilterTurfs(all[1..], f, query)
    else FilterTurfs(all[1..], f, query)
  }

  lemma {:induction false} EveryIncludedIff(wanted: seq<string>, offered: seq<string>)
    ensures EveryIncluded(wanted, offered) <==> forall a :: a in wanted ==> a in offered
  {
    if |wanted| > 0 {
      EveryIncludedIff(wanted[1..], offered);
      assert wanted == [wanted[0]] + wanted[1..];
    }
  }

  /** Every requested amenity must be offered; asking for none admits every turf. */
  lemma AmenitiesPassIff(t: Turf, f: Filters)
    ensures AmenitiesPass(t, f) <==> forall a :: a in f.amenities ==> a in t.amenities
  {
    EveryIncludedIff(f.amenities, t.amenities);
  }

  lemma {:induction false} SomeSportIncludesIff(sports: seq<string>, q: string)
    ensures SomeSportIncludes(sports, q) <==> exists i :: 0 <= i < |sports| && Includes(Lower(sports[i]), q)
  {
    if |sports| > 0 {
      SomeSportIncludesIff(sports[1..], q);
      if SomeSportIncludes(sports[1..], q) {
        var i :| 0 <= i < |sports[1..]| && Includes(Lower(sports[1..][i]), q);
        assert sports[i + 1] == sports[1..][i];
      }
      if exists i :: 0 <= i < |sports| && Includes(Lower(sports[i]), q) {
        var i :| 0 <= i < |sports| && Includes(Lower(sports[i]), q);
        if i > 0 {
          assert sports[1..][i - 1] == sports[i];
        }
      }
    }
  }

  /**
   * A non-empty search matches when the lower-cased query occurs in the
   * lower-cased name, location or one of the sports; an empty one matches all.
   */
  lemma SearchPassesIff(t: Turf, query: string)
    ensures SearchPasses(t, query) <==>
      || query == ""
      || (exists k :: OccursAt(Lower(t.name), Lower(query), k))
      || (exists k :: OccursAt(Lower(t.location), Lower(query), k))
      || (exists i, k :: 0 <= i < |t.sports| && OccursAt(Lower(t.sports[i]), Lower(query), k))
  {
    var q := Lower(query);
    IncludesIff(Lower(t.name), q);
    IncludesIff(Lower(t.location), q);
    SomeSportIncludesIff(t.sports, q);
    forall i | 0 <= i < |t.sports| {
      IncludesIff(Lower(t.sports[i]), q);
    }
  }

  /** Both ends of a two-element price range are admitted. */
  lemma PriceRangeInclusive(t: Turf, f: Filters)
    requires |f.priceRange| >= 2
    ensures PricePasses(t, f) <==> f.priceRange[0] <= t.price <= f.priceRange[1]
  {
  }

  /** An empty location, sport or search and a rating of 0 each admit every turf. */
  lemma InactiveFiltersAdmit(t: Turf, f: Filters, query: string)
    ensures f.location == "" ==> LocationPasses(t, f)
    ensures f.sport == "" ==> SportPasses(t, f)
    ensures f.rating == 0 ==> RatingPasses(t, f)
    ensures f.amenities == [] ==> AmenitiesPass(t, f)
    ensures query == "" ==> SearchPasses(t, query)
  {
  }

  /** A turf is shown with its full multiplicity when it passes, and not at all when it fails. */
  lemma {:induction false} FilterCount(all: seq<Turf>, f: Filters, query: string, t: Turf)
    ensures multiset(FilterTurfs(all, f, query))[t] == if Passes(t, f, query) then multiset(all)[t] else 0
  {
    if |all| > 0 {
      FilterCount(all[1..], f, query, t);
      assert all == [all[0]] + all[1..];
    }
  }

  /** A turf is in the filtered list exactly when it is one of the turfs and passes every active filter. */
  lemma FilterMembership(all: seq<Turf>, f: Filters, query: string, t: Turf)
    ensures t in FilterTurfs(all, f, query) <==> t in all && Passes(t, f, query)
  {
    FilterCount(all, f, query, t);
  }

  /** Whether each turf of `all` passes, position by position. */
  function PassFlags(all: seq<Turf>, f: Filters, query: string): (r: seq<bool>)
    ensures |r| == |all| && forall i :: 0 <= i < |r| ==> r[i] == Passes(all[i], f, query)
  {
    seq(|all|, i requires 0 <= i < |all| => Passes(all[i], f, query))
  }

  /** The turfs of `all` whose flag is set, in order. */
  function Kept(all: seq<Turf>, keep: seq<bool>): seq<Turf>
    requires |keep| == |all|
  {
    if |all| == 0 then []
    else (if keep[0] then [all[0]] else []) + Kept(all[1..], keep[1..])
  }

  /** The filter keeps exactly the turfs flagged as passing. */
  lemma {:induction false} FilterIsKept(all: seq<Turf>, f: Filters, query: string)
    ensures FilterTurfs(all, f, query) == Kept(all, PassFlags(all, f, query))
  {
    if |all| > 0 {
      FilterIsKept(all[1..], f, query);
      assert PassFlags(all, f, query)[1..] == PassFlags(all[1..], f, query);
    }
  }

  /**
   * `pos` lists, in increasing order, exactly the positions of `all` whose
   * flag is set, and `r` is the turfs at those positions.
   */
  ghost predicate IsKeptPositions(pos: seq<int>, r: seq<Turf>, all: seq<Turf>, keep: seq<bool>)
    requires |keep| == |all|
  {
    && |pos| == |r|
    && (forall i :: 0 <= i < |pos| ==> 0 <= pos[i] < |all| && r[i] == all[pos[i]])
    && (forall i, j :: 0 <= i < j < |pos| ==> pos[i] < pos[j])
    && (forall j :: 0 <= j < |all| ==> (j in pos <==> keep[j]))
  }

  /** Each position moved one place on. */
  function Shifted(rest: seq<int>): (r: seq<int>)
    ensures |r| == |rest| && forall i :: 0 <= i < |r| ==> r[i] == rest[i] + 1
  {
    seq(|rest|, i requires 0 <= i < |rest| => rest[i] + 1)
  }

  /** The kept positions of `all[1..]`, moved on by one, are the kept positions of `all` after the first. */
  lemma ShiftedKept(rest: seq<int>, all: seq<Turf>, keep: seq<bool>)
    requires |keep| == |all| > 0
    requires IsKeptPositions(rest, Kept(all[1..], keep[1..]), all[1..], keep[1..])
    ensures forall j :: 1 <= j < |all| ==> (j in Shifted(rest) <==> keep[j])
    ensures 0 !in Shifted(rest)
  {
    var shifted := Shifted(rest);
    forall j | 1 <= j < |all| ensures j in shifted <==> keep[j] {
      assert keep[1..][j - 1] == keep[j];
      if j - 1 in rest {
        var i :| 0 <= i < |rest| && rest[i] == j - 1;
        assert shifted[i] == j;
      }
      if j in shifted {
        var i :| 0 <= i < |shifted| && shifted[i] == j;
        assert rest[i] == j - 1;
      }
    }
  }

  /** Keeping by flags keeps the original relative order. */
  lemma {:induction false} KeptPositions(all: seq<Turf>, keep: seq<bool>) returns (pos: seq<int>)
    requires |keep| == |all|
    ensures IsKeptPositions(pos, Kept(all, keep), all, keep)
  {
    if |all| == 0 {
      pos := [];
    } else {
      var rest := KeptPositions(all[1..], keep[1..]);
      ShiftedKept(rest, all, keep);
      pos := ConsPositions(Shifted(rest), Kept(all[1..], keep[1..]), all, keep);
    }
  }

  /** The positions for `all` from the shifted positions of its tail. */
  lemma ConsPositions(shifted: seq<int>, tail: seq<Turf>, all: seq<Turf>, keep: seq<bool>) returns (pos: seq<int>)
    requires |keep| == |all| > 0 && tail == Kept(all[1..], keep[1..])
    requires |shifted| == |tail|
    requires forall i :: 0 <= i < |shifted| ==> 1 <= shifted[i] < |all| && tail[i] == all[shifted[i]]
    requires forall i, j :: 0 <= i < j < |shifted| ==> shifted[i] < shifted[j]
    requires forall j :: 1 <= j < |all| ==> (j in shifted <==> keep[j])
    requires 0 !in shifted
    ensures IsKeptPositions(pos, Kept(all, keep), all, keep)
  {
    if keep[0] {
      pos := [0] + shifted;
      assert Kept(all, keep) == [all[0]] + tail;
      KeptFirst(shifted, tail, all, keep);
    } else {
      pos := shifted;
      assert Kept(all, keep) == tail;
    }
  }

  /** The case where the first turf is kept: position 0 goes in front. */
  lemma KeptFirst(shifted: seq<int>, tail: seq<Turf>, all: seq<Turf>, keep: seq<bool>)
    requires |keep| == |all| > 0 && keep[0]
    requires |shifted| == |tail|
    requires forall i :: 0 <= i < |shifted| ==> 1 <= shifted[i] < |all| && tail[i] == all[shifted[i]]
    requires forall i, j :: 0 <= i < j < |shifted| ==> shifted[i] < shifted[j]
    requires forall j :: 1 <= j < |all| ==> (j in shifted <==> keep[j])
    ensures IsKeptPositions([0] + shifted, [all[0]] + tail, all, keep)
  {
    var pos := [0] + shifted;
    var r := [all[0]] + tail;
    forall i | 0 <= i < |pos| ensures 0 <= pos[i] < |all| && r[i] == all[pos[i]] {
      if i > 0 {
        assert pos[i] == shifted[i - 1] && r[i] == tail[i - 1];
      }
    }
    forall i, j | 0 <= i < j < |pos| ensures pos[i] < pos[j] {
      assert pos[j] == shifted[j - 1];
      if i > 0 {
        assert pos[i] == shifted[i - 1];
      }
    }
    forall j | 0 <= j < |all| ensures j in pos <==> keep[j] {
      if j == 0 {
        assert pos[0] == 0;
      } else {
        assert j in pos <==> j in shifted;
      }
    }
  }

  /**
   * Filtering keeps the original relative order: the result is `all` at an
   * increasing sequence of positions, which are exactly the passing ones.
   */
  lemma FilterKeepsOrder(all: seq<Turf>, f: Filters, query: string) returns (pos: seq<int>)
    ensures var r := FilterTurfs(all, f, query);
      && |pos| == |r|
      && (forall i :: 0 <= i < |pos| ==> 0 <= pos[i] < |all| && r[i] == all[pos[i]])
      && (forall i, j :: 0 <= i < j < |pos| ==> pos[i] < pos[j])
      && (forall j :: 0 <= j < |all| ==> (j in pos <==> Passes(all[j], f, query)))
  {
    FilterIsKept(all, f, query);
    pos := KeptPositions(all, PassFlags(all, f, query));
  }

  /** With no active filter and every price inside the range, all turfs are shown, in order. */
  lemma {:induction false} InactiveFiltersKeepAll(all: seq<Turf>, f: Filters, query: string)
    requires f.location == "" && f.sport == "" && f.rating == 0 && f.amenities == [] && query == ""
    requires forall i :: 0 <= i < |all| ==> PricePasses(all[i], f)
    ensures FilterTurfs(all, f, query) == all
  {
    if |all| > 0 {
      InactiveFiltersKeepAll(all[1..], f, query);
    }
  }

  /** Filtering the filtered list again changes nothing. */
  lemma {:induction false} FilterIdempotent(all: seq<Turf>, f: Filters, query: string)
    ensures FilterTurfs(FilterTurfs(all, f, query), f, query) == FilterTurfs(all, f, query)
  {
    if |all| > 0 {
      FilterIdempotent(all[1..], f, query);
    }
  }

  // ----- The sort (TurfGrid.tsx lines 153-166) -----

  /** The three orders of the sort selector that reorder the list. */
  datatype SortOrder = ByRating | PriceLowToHigh | PriceHighToLow

  /** The `sortBy` switch; any other value (the default 'popularity', 'distance') keeps the filtered order. */
  function OrderFor(sortBy: string): Option<SortOrder> {
    if sortBy == "rating" then Some(ByRating)
    else if sortBy == "price-low" then Some(PriceLowToHigh)
    else if sortBy == "price-high" then Some(PriceHighToLow)
    else None
  }

  /** The comparator passed to `.sort`: negative when `a` goes before `b`. */
  function Compare(a: Turf, b: Turf, o: SortOrder): int {
    match o
    case ByRating => b.rating - a.rating
    case PriceLowToHigh => a.price - b.price
    case PriceHighToLow => b.price - a.price
  }

  /** A number per turf that every comparator above orders ascending. */
  function Rank(t: Turf, o: SortOrder): int {
    match o
    case ByRating => -t.rating
    case PriceLowToHigh => t.price
    case PriceHighToLow => -t.price
  }

  /** Every comparator is the difference of the two ranks. */
  lemma CompareIsRankDifference(a: Turf, b: Turf, o: SortOrder)
    ensures Compare(a, b, o) == Rank(a, o) - Rank(b, o)
  {
  }

  /** No later turf should go before an earlier one by the comparator. */
  ghost predicate IsSortedBy(s: seq<Turf>, o: SortOrder) {
    forall i, j :: 0 <= i < j < |s| ==> Rank(s[i], o) <= Rank(s[j], o)
  }

  /** The turfs of `s` that the comparator ranks at `k`, in their order in `s`. */
  function WithRank(s: seq<Turf>, o: SortOrder, k: int): seq<Turf> {
    if |s| == 0 then []
    else if Rank(s[0], o) == k then [s[0]] + WithRank(s[1..], o, k)
    else WithRank(s[1..], o, k)
  }

  /** Places `x` after every turf of sorted `r` that does not rank after it. */
  function Insert(r: seq<Turf>, x: Turf, o: SortOrder): seq<Turf> {
    if |r| == 0 then [x]
    else if Compare(x, r[0], o) < 0 then [x] + r
    else [r[0]] + Insert(r[1..], x, o)
  }

  lemma {:induction false} InsertPermutes(r: seq<Turf>, x: Turf, o: SortOrder)
    ensures multiset(Insert(r, x, o)) == multiset(r) + multiset{x}
  {
    if |r| > 0 && Compare(x, r[0], o) >= 0 {
      InsertPermutes(r[1..], x, o);
      assert r == [r[0]] + r[1..];
    }
  }

  lemma {:induction false} InsertSorted(r: seq<Turf>, x: Turf, o: SortOrder)
    requires IsSortedBy(r, o)
    ensures IsSortedBy(Insert(r, x, o), o)
  {
    if |r| > 0 && Compare(x, r[0], o) >= 0 {
      var tail := Insert(r[1..], x, o);
      InsertSorted(r[1..], x, o);
      forall j | 0 <= j < |tail| ensures Rank(r[0], o) <= Rank(tail[j], o) {
        InsertFrom(r[1..], x, o, j);
      }
      SortedCons(r[0], tail, o);
    } else if |r| > 0 {
      SortedCons(x, r, o);
    }
  }

  /** Every turf of an insertion is the inserted one or one of the list's. */
  lemma {:induction false} InsertFrom(r: seq<Turf>, x: Turf, o: SortOrder, j: nat)
    requires j < |Insert(r, x, o)|
    ensures Insert(r, x, o)[j] == x || Insert(r, x, o)[j] in r
  {
    if |r| > 0 && Compare(x, r[0], o) >= 0 && j > 0 {
      InsertFrom(r[1..], x, o, j - 1);
    }
  }

  /** A turf ranked no later than every turf of a sorted list can go in front of it. */
  lemma SortedCons(a: Turf, s: seq<Turf>, o: SortOrder)
    requires IsSortedBy(s, o)
    requires forall j :: 0 <= j < |s| ==> Rank(a, o) <= Rank(s[j], o)
    ensures IsSortedBy([a] + s, o)
  {
    var t := [a] + s;
    forall i, j | 0 <= i < j < |t| ensures Rank(t[i], o) <= Rank(t[j], o) {
      assert t[j] == s[j - 1];
      if i > 0 {
        assert t[i] == s[i - 1];
      }
    }
  }

  lemma {:induction false} WithRankNone(s: seq<Turf>, o: SortOrder, k: int)
    requires forall i :: 0 <= i < |s| ==> Rank(s[i], o) != k
    ensures WithRank(s, o, k) == []
  {
    if |s| > 0 {
      WithRankNone(s[1..], o, k);
    }
  }

  /** Inserting keeps every rank class in order and puts `x` last in its own. */
  lemma {:induction false} InsertStable(r: seq<Turf>, x: Turf, o: SortOrder, k: int)
    requires IsSortedBy(r, o)
    ensures WithRank(Insert(r, x, o), o, k) == WithRank(r, o, k) + (if Rank(x, o) == k then [x] else [])
  {
    if |r| == 0 {
    } else if Compare(x, r[0], o) < 0 {
      if Rank(x, o) == k {
        WithRankNone(r, o, k);
      }
    } else {
      InsertStable(r[1..], x, o, k);
    }
  }

  lemma {:induction false} WithRankAppend(s: seq<Turf>, x: Turf, o: SortOrder, k: int)
    ensures WithRank(s + [x], o, k) == WithRank(s, o, k) + (if Rank(x, o) == k then [x] else [])
  {
    if |s| > 0 {
      assert (s + [x])[1..] == s[1..] + [x];
      WithRankAppend(s[1..], x, o, k);
    }
  }

  /**
   * `filteredTurfs.sort(comparator)`, a stable sort: the result is ordered
   * by the comparator, is a permutation of the input, and turfs the
   * comparator ties keep their input order.
   */
  method SortTurfs(turfs: seq<Turf>, o: SortOrder) returns (sorted: seq<Turf>)
    ensures IsSortedBy(sorted, o)
    ensures multiset(sorted) == multiset(turfs)
    ensures forall k :: WithRank(sorted, o, k) == WithRank(turfs, o, k)
  {
    sorted := [];
    for n := 0 to |turfs|
      invariant IsSortedBy(sorted, o)
      invariant multiset(sorted) == multiset(turfs[..n])
      invariant forall k :: WithRank(sorted, o, k) == WithRank(turfs[..n], o, k)
    {
      var x := turfs[n];
      assert turfs[..n + 1] == turfs[..n] + [x];
      InsertSorted(sorted, x, o);
      InsertPermutes(sorted, x, o);
      forall k ensures WithRank(Insert(sorted, x, o), o, k) == WithRank(turfs[..n + 1], o, k) {
        InsertStable(sorted, x, o, k);
        WithRankAppend(turfs[..n], x, o, k);
      }
      sorted := Insert(sorted, x, o);
    }
    assert turfs[..|turfs|] == turfs;
  }

  /**
   * The list the browse page renders: the filtered turfs, sorted when
   * `sortBy` names one of the three orders and otherwise left as filtered.
   */
  method ShownTurfs(all: seq<Turf>, f: Filters, query: string, sortBy: string) returns (shown: seq<Turf>)
    ensures multiset(shown) == multiset(FilterTurfs(all, f, query))
    ensures forall t :: t in shown <==> t in all && Passes(t, f, query)
    ensures OrderFor(sortBy) == None ==> shown == FilterTurfs(all, f, query)
    ensures sortBy == "rating" ==> forall i, j :: 0 <= i < j < |shown| ==> shown[i].rating >= shown[j].rating
    ensures sortBy == "price-low" ==> forall i, j :: 0 <= i < j < |shown| ==> shown[i].price <= shown[j].price
    ensures sortBy == "price-high" ==> forall i, j :: 0 <= i < j < |shown| ==> shown[i].price >= shown[j].price
    ensures forall o, k :: OrderFor(sortBy) == Some(o) ==>
      WithRank(shown, o, k) == WithRank(FilterTurfs(all, f, query), o, k)
  {
    var filtered := FilterTurfs(all, f, query);
    match OrderFor(sortBy) {
      case Some(o) =>
        shown := SortTurfs(filtered, o);
      case None =>
        shown := filtered;
    }
    forall t ensures t in shown <==> t in all && Passes(t, f, query) {
      FilterMembership(all, f, query, t);
      assert t in shown <==> t in multiset(shown);
    }
  }
}
