/**
 * The read-only queries over the `moments` table: the ordered listing, the
 * lookup by id, the rows a DELETE keeps, and the statistics aggregate.
 */
module Queries {
  import opened Wrappers
  import opened Text
  import opened Sorting
  import opened Schema

  // ----- Row order and identity -----

  /** Ids strictly increase along the table, as rowids do in SQLite's table B-tree. */
  predicate IdsIncreasing(rows: seq<Moment>) {
    forall i, j :: 0 <= i < j < |rows| ==> rows[i].id < rows[j].id
  }

  /** `ORDER BY date DESC, createdAt DESC`: `a` may be listed before `b`. */
  predicate OrderedBefore(a: Moment, b: Moment) {
    || (LexLe(b.date, a.date) && a.date != b.date)
    || (a.date == b.date && LexLe(b.createdAt, a.createdAt))
  }

  lemma {:induction false} OrderedBeforeIsPreorder()
    ensures Total(OrderedBefore) && Transitive(OrderedBefore)
  {
    forall a: Moment, b: Moment ensures OrderedBefore(a, b) || OrderedBefore(b, a) {
      LexLeTotal(a.date, b.date);
      LexLeTotal(a.createdAt, b.createdAt);
    }
    forall a: Moment, b: Moment, c: Moment | OrderedBefore(a, b) && OrderedBefore(b, c)
      ensures OrderedBefore(a, c)
    {
      LexLeReflexive(a.date);
      LexLeReflexive(b.date);
      assert LexLe(b.date, a.date) && LexLe(c.date, b.date);
      LexLeTransitive(c.date, b.date, a.date);
      if a.date == c.date {
        LexLeAntisymmetric(a.date, b.date);
        LexLeTransitive(c.createdAt, b.createdAt, a.createdAt);
      }
    }
  }

  /**
   * `SELECT * FROM moments ORDER BY date DESC, createdAt DESC`: every row
   * exactly once, newest date first and, for equal dates, latest entry first.
   */
  function ListAll(rows: seq<Moment>): (r: seq<Moment>)
    ensures multiset(r) == multiset(rows) && |r| == |rows|
    ensures SortedBy(OrderedBefore, r)
  {
    OrderedBeforeIsPreorder();
    SortByIsSorted(rows, OrderedBefore);
    assert |multiset(SortBy(rows, OrderedBefore))| == |multiset(rows)|;
    SortBy(rows, OrderedBefore)
  }

  /** Consecutive listed rows have non-increasing dates, the reading the UI relies on. */
  lemma {:induction false} ListAllNewestFirst(rows: seq<Moment>, i: nat)
    requires i + 1 < |ListAll(rows)|
    ensures LexLe(ListAll(rows)[i + 1].date, ListAll(rows)[i].date)
    ensures ListAll(rows)[i + 1].date == ListAll(rows)[i].date ==>
              LexLe(ListAll(rows)[i + 1].createdAt, ListAll(rows)[i].createdAt)
  {
    var r := ListAll(rows);
    assert OrderedBefore(r[i], r[i + 1]);
    LexLeReflexive(r[i].date);
  }

  /** The first row carrying `id` (`find`, or `WHERE id = ?` with `getFirstAsync`). */
  function FirstWithId(ms: seq<Moment>, id: int): (r: Option<Moment>)
    ensures r.None? <==> forall i :: 0 <= i < |ms| ==> ms[i].id != id
    ensures r.Some? ==> r.value.id == id && r.value in ms
    ensures r.Some? ==> exists i :: 0 <= i < |ms| && ms[i] == r.value && forall j :: 0 <= j < i ==> ms[j].id != id
  {
    if ms == [] then None
    else if ms[0].id == id then Some(ms[0])
    else
      var r := FirstWithId(ms[1..], id);
      assert forall i :: 0 < i < |ms| ==> ms[i] == ms[1..][i - 1];
      if r.Some? then
        ghost var k :| 0 <= k < |ms[1..]| && ms[1..][k] == r.value && forall j :: 0 <= j < k ==> ms[1..][j].id != id;
        assert ms[k + 1] == r.value;
        r
      else r
  }

  /** With unique ids, the lookup finds the row that carries the id. */
  lemma {:induction false} FirstWithIdUnique(rows: seq<Moment>, k: nat)
    requires IdsIncreasing(rows) && k < |rows|
    ensures FirstWithId(rows, rows[k].id) == Some(rows[k])
  {
    var r := FirstWithId(rows, rows[k].id);
    var i :| 0 <= i < |rows| && rows[i] == r.value && forall j :: 0 <= j < i ==> rows[j].id != rows[k].id;
    assert i == k;
  }

  /** The position of the row with `id`, which the engine's WHERE clause finds. */
  function IndexOfId(rows: seq<Moment>, id: int): (r: Option<nat>)
    ensures r.Some? ==> r.value < |rows| && rows[r.value].id == id
    ensures r.None? <==> forall i :: 0 <= i < |rows| ==> rows[i].id != id
  {
    if rows == [] then None
    else if rows[|rows| - 1].id == id then Some(|rows| - 1)
    else
      var r := IndexOfId(rows[..|rows| - 1], id);
      assert forall i :: 0 <= i < |rows| - 1 ==> rows[i] == rows[..|rows| - 1][i];
      r
  }

  /** The rows `DELETE FROM moments WHERE id = ?` keeps. */
  function WithoutId(rows: seq<Moment>, id: int): (r: seq<Moment>)
    ensures forall m :: m in r <==> m in rows && m.id != id
    ensures |r| <= |rows|
    ensures (forall i :: 0 <= i < |rows| ==> rows[i].id != id) ==> r == rows
  {
    if rows == [] then []
    else
      var rest := WithoutId(rows[1..], id);
      assert rows == [rows[0]] + rows[1..];
      if rows[0].id == id then rest else [rows[0]] + rest
  }

  /** Deleting keeps the remaining rows in id order. */
  lemma {:induction false} WithoutIdKeepsOrder(rows: seq<Moment>, id: int)
    requires IdsIncreasing(rows)
    ensures IdsIncreasing(WithoutId(rows, id))
  {
    if rows != [] {
      WithoutIdKeepsOrder(rows[1..], id);
      var rest := WithoutId(rows[1..], id);
      if rows[0].id != id {
        forall m | m in rest ensures rows[0].id < m.id {
          assert m in rows[1..];
        }
        PrependKeepsOrder(rows[0], rest);
      }
    }
  }

  lemma PrependKeepsOrder(x: Moment, rest: seq<Moment>)
    requires IdsIncreasing(rest) && forall m :: m in rest ==> x.id < m.id
    ensures IdsIncreasing([x] + rest)
  {
    var r := [x] + rest;
    forall i, j | 0 <= i < j < |r| ensures r[i].id < r[j].id {
      if i == 0 {
        assert r[j] in rest;
      } else {
        assert r[i] == rest[i - 1] && r[j] == rest[j - 1];
      }
    }
  }

  // ----- Statistics -----

  datatype RatingKind = Pleasure | Comfort | Audacity

  function RatingOf(m: Moment, k: RatingKind): int {
    match k
    case Pleasure => m.pleasureRating
    case Comfort => m.comfortRating
    case Audacity => m.audacityRating
  }

  function SumOf(rows: seq<Moment>, k: RatingKind): int {
    if rows == [] then 0 else SumOf(rows[..|rows| - 1], k) + RatingOf(rows[|rows| - 1], k)
  }

  /** `AVG(x)` over the table, with a NULL average (empty table) read as 0 by `|| 0`. */
  function Mean(rows: seq<Moment>, k: RatingKind): (r: real)
    ensures |rows| > 0 ==> r * (|rows| as real) == SumOf(rows, k) as real
    ensures |rows| == 0 ==> r == 0.0
  {
    if |rows| == 0 then 0.0 else (SumOf(rows, k) as real) / (|rows| as real)
  }

  lemma {:induction false} SumBounds(rows: seq<Moment>, k: RatingKind)
    requires forall i :: 0 <= i < |rows| ==> RowValid(rows[i])
    ensures |rows| <= SumOf(rows, k) <= 10 * |rows|
  {
    if rows != [] {
      SumBounds(rows[..|rows| - 1], k);
      assert RowValid(rows[|rows| - 1]);
    }
  }

  /** The CHECK constraints keep every average of a non-empty table within 1..10. */
  lemma {:induction false} MeanInRange(rows: seq<Moment>, k: RatingKind)
    requires forall i :: 0 <= i < |rows| ==> RowValid(rows[i])
    requires |rows| > 0
    ensures 1.0 <= Mean(rows, k) <= 10.0
  {
    SumBounds(rows, k);
    QuotientBounds(SumOf(rows, k) as real, |rows| as real);
  }

  /** The quotient of `total` by `n` lies in 1..10 when `total` lies in `n`..`10 n`. */
  lemma QuotientBounds(total: real, n: real)
    requires n > 0.0 && n <= total <= 10.0 * n
    ensures 1.0 <= total / n <= 10.0
  {
    QuotientAtLeast(total, n, 1.0);
    QuotientAtMost(total, n, 10.0);
  }

  lemma QuotientAtLeast(total: real, n: real, b: real)
    requires n > 0.0 && b * n <= total
    ensures b <= total / n
  {
    var m := total / n;
    assert m * n == total;
    if m < b {
      MulPositive(b - m, n);
      Distribute(b, m, n);
    }
  }

  lemma QuotientAtMost(total: real, n: real, b: real)
    requires n > 0.0 && total <= b * n
    ensures total / n <= b
  {
    var m := total / n;
    assert m * n == total;
    if m > b {
      MulPositive(m - b, n);
      Distribute(m, b, n);
    }
  }

  lemma Distribute(a: real, b: real, c: real)
    ensures (a - b) * c == a * c - b * c
  {
  }

  lemma MulPositive(x: real, y: real)
    requires x > 0.0 && y > 0.0
    ensures x * y > 0.0
  {
  }

  function CountAt(rows: seq<Moment>, location: string): (n: nat)
    ensures n > 0 <==> exists i :: 0 <= i < |rows| && rows[i].location == location
    ensures n <= |rows|
  {
    if rows == [] then 0
    else
      var n := CountAt(rows[..|rows| - 1], location);
      assert forall i :: 0 <= i < |rows| - 1 ==> rows[i] == rows[..|rows| - 1][i];
      n + (if rows[|rows| - 1].location == location then 1 else 0)
  }

  ghost predicate Distinct<T>(s: seq<T>) {
    forall i, j :: 0 <= i < j < |s| ==> s[i] != s[j]
  }

  /** The distinct locations in order of first appearance (the groups of `GROUP BY location`). */
  function Locations(rows: seq<Moment>): (r: seq<string>)
    ensures Distinct(r)
    ensures forall l :: l in r <==> exists i :: 0 <= i < |rows| && rows[i].location == l
  {
    if rows == [] then []
    else
      var prev := Locations(rows[..|rows| - 1]);
      var l := rows[|rows| - 1].location;
      assert forall i :: 0 <= i < |rows| - 1 ==> rows[i] == rows[..|rows| - 1][i];
      if l in prev then prev else prev + [l]
  }

  /** One row of `SELECT location, COUNT(*) as count ... GROUP BY location`. */
  datatype LocationCount = LocationCount(location: string, count: int)

  function Groups(rows: seq<Moment>): (g: seq<LocationCount>)
    ensures |g| == |Locations(rows)|
    ensures forall i :: 0 <= i < |g| ==> g[i] == LocationCount(Locations(rows)[i], CountAt(rows, Locations(rows)[i]))
  {
    var locs := Locations(rows);
    seq(|locs|, i requires 0 <= i < |locs| => LocationCount(locs[i], CountAt(rows, locs[i])))
  }

  /** `ORDER BY count DESC`: `a` may be listed before `b`. */
  predicate CountAtLeast(a: LocationCount, b: LocationCount) {
    a.count >= b.count
  }

  function Min(a: int, b: int): int {
    if a <= b then a else b
  }

  /**
   * What `GROUP BY location ORDER BY count DESC LIMIT 3` promises: at most
   * three distinct locations of the table, each with its exact count, by
   * non-increasing count, and no location left out that occurs more often
   * than the last one listed. Among equal counts any order is allowed.
   */
  ghost predicate IsTopLocations(rows: seq<Moment>, top: seq<LocationCount>) {
    && |top| <= 3
    && (forall i :: 0 <= i < |top| ==> top[i].count == CountAt(rows, top[i].location) && top[i].count >= 1)
    && (forall i, j :: 0 <= i < j < |top| ==> top[i].location != top[j].location)
    && (forall i, j :: 0 <= i < j < |top| ==> top[i].count >= top[j].count)
    && (forall i :: 0 <= i < |rows| && (forall j :: 0 <= j < |top| ==> top[j].location != rows[i].location) ==>
          |top| == 3 && CountAt(rows, rows[i].location) <= top[2].count)
  }

  lemma DistinctCount<T>(s: seq<T>, x: T)
    requires Distinct(s)
    ensures multiset(s)[x] <= 1
  {
    if s != [] {
      assert s == [s[0]] + s[1..];
      DistinctCount(s[1..], x);
      if x == s[0] {
        assert x !in s[1..];
      }
    }
  }

  lemma DuplicateCount<T>(s: seq<T>, i: nat, j: nat)
    requires i < j < |s| && s[i] == s[j]
    ensures multiset(s)[s[i]] >= 2
  {
    assert s == s[..j] + s[j..];
    assert s[i] in s[..j];
    assert s[j] in s[j..];
  }

  /** One admissible result of the top-three query: counts sorted, first three kept. */
  function TopLocations(rows: seq<Moment>): (top: seq<LocationCount>)
    ensures IsTopLocations(rows, top)
  {
    var groups := Groups(rows);
    var sorted := SortBy(groups, CountAtLeast);
    assert forall a, b, c :: CountAtLeast(a, b) && CountAtLeast(b, c) ==> CountAtLeast(a, c);
    SortByIsSorted(groups, CountAtLeast);
    TopOfSorted(rows, sorted);
    sorted[..Min(3, |sorted|)]
  }

  /** Every entry of a permutation of the groups is a group with its exact count. */
  lemma {:induction false} SortedEntriesExact(rows: seq<Moment>, sorted: seq<LocationCount>)
    requires multiset(sorted) == multiset(Groups(rows))
    ensures forall k :: 0 <= k < |sorted| ==>
              sorted[k].count == CountAt(rows, sorted[k].location) && sorted[k].count >= 1
  {
    var groups, locs := Groups(rows), Locations(rows);
    forall k | 0 <= k < |sorted|
      ensures sorted[k].count == CountAt(rows, sorted[k].location) && sorted[k].count >= 1
    {
      assert sorted[k] in multiset(groups);
      var g :| 0 <= g < |groups| && sorted[k] == groups[g];
      assert locs[g] in locs;
    }
  }

  /** A permutation of the groups lists each location once. */
  lemma {:induction false} SortedLocationsDistinct(rows: seq<Moment>, sorted: seq<LocationCount>)
    requires multiset(sorted) == multiset(Groups(rows))
    ensures forall i, j :: 0 <= i < j < |sorted| ==> sorted[i].location != sorted[j].location
  {
    var groups, locs := Groups(rows), Locations(rows);
    SortedEntriesExact(rows, sorted);
    assert Distinct(groups) by {
      forall i, j | 0 <= i < j < |groups| ensures groups[i] != groups[j] {
        assert locs[i] != locs[j];
      }
    }
    forall i, j | 0 <= i < j < |sorted| ensures sorted[i].location != sorted[j].location {
      if sorted[i].location == sorted[j].location {
        assert sorted[i] == sorted[j];
        DuplicateCount(sorted, i, j);
        DistinctCount(groups, sorted[i]);
      }
    }
  }

  /** A location left out of the first three of the sorted groups occurs no more often than the third. */
  lemma {:induction false} OmittedBelowThird(rows: seq<Moment>, sorted: seq<LocationCount>, i: nat)
    requires multiset(sorted) == multiset(Groups(rows)) && SortedBy(CountAtLeast, sorted)
    requires i < |rows|
    requires forall j :: 0 <= j < Min(3, |sorted|) ==> sorted[j].location != rows[i].location
    ensures Min(3, |sorted|) == 3 && CountAt(rows, rows[i].location) <= sorted[2].count
  {
    var groups, locs := Groups(rows), Locations(rows);
    var l := rows[i].location;
    assert l in locs;
    var g :| 0 <= g < |locs| && locs[g] == l;
    assert groups[g] in multiset(sorted);
    var k :| 0 <= k < |sorted| && sorted[k] == groups[g];
    assert k >= Min(3, |sorted|);
    assert k == 2 || CountAtLeast(sorted[2], sorted[k]);
  }

  lemma {:induction false} TopOfSorted(rows: seq<Moment>, sorted: seq<LocationCount>)
    requires multiset(sorted) == multiset(Groups(rows)) && SortedBy(CountAtLeast, sorted)
    ensures IsTopLocations(rows, sorted[..Min(3, |sorted|)])
  {
    var top := sorted[..Min(3, |sorted|)];
    SortedEntriesExact(rows, sorted);
    SortedLocationsDistinct(rows, sorted);
    forall i | 0 <= i < |rows| && (forall j :: 0 <= j < |top| ==> top[j].location != rows[i].location)
      ensures |top| == 3 && CountAt(rows, rows[i].location) <= top[2].count
    {
      OmittedBelowThird(rows, sorted, i);
    }
  }

  /** The result of `getStats`. */
  datatype Stats = Stats(total: int, avgPleasure: real, avgComfort: real, avgAudacity: real,
                         topLocations: seq<LocationCount>)

  /** The statistics over the table: row count, the three exact means, and one admissible top-three. */
  function ComputeStats(rows: seq<Moment>): (s: Stats)
    ensures s.total == |rows| && IsTopLocations(rows, s.topLocations)
    ensures s.avgPleasure == Mean(rows, Pleasure) && s.avgComfort == Mean(rows, Comfort)
            && s.avgAudacity == Mean(rows, Audacity)
  {
    Stats(|rows|, Mean(rows, Pleasure), Mean(rows, Comfort), Mean(rows, Audacity), TopLocations(rows))
  }

  /** On an empty table: count 0, every mean 0, no locations. */
  lemma EmptyStats(top: seq<LocationCount>)
    ensures ComputeStats([]).total == 0 && ComputeStats([]).avgPleasure == 0.0
    ensures ComputeStats([]).avgComfort == 0.0 && ComputeStats([]).avgAudacity == 0.0
    ensures IsTopLocations([], top) <==> top == []
  {
    if top != [] {
      var x := top[0];
      assert x.count >= 1 ==> x.count != CountAt([], x.location);
    }
  }
}
