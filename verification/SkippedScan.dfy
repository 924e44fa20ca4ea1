/** Skipping the scan for duplicates is right for every centre exactly when the level before is as fine as the first, or
    there is at most one subset of the level's size. */
module SkippedScan {
  import opened Combos
  import opened Coefficients
  import opened Positions
  import opened Sites
  import opened Duplicates

  /** What holds when the server enters level `l`. */
  ghost predicate Entered(g: Geometry, centre: seq<nat>, visited: set<nat>, l: nat)
    requires GeoOk(g) && l < g.levels
  {
    && CentreOk(g, centre) && CodeOf(g, centre) in visited
    && forall e :: 0 <= e < Upto(g, l) ==> Site(g, centre, e) in visited
  }

  ghost predicate NeverTwice(g: Geometry, l: nat)
    requires GeoOk(g) && l < g.levels
  {
    forall centre, visited, c, d ::
      Entered(g, centre, visited, l) && c in LevelWork(g, centre, visited, l)
      && d in LevelWork(g, centre, visited, l) && c != d && c < Total(g) && d < Total(g)
      ==> Site(g, centre, c) != Site(g, centre, d)
  }

  // ----- A fine index the coarse grid misses -----

  ghost predicate Misses(v: nat, lo: nat, hi: nat)
    requires lo > 0
  {
    forall k :: 0 <= k < lo ==> Rescale(k, lo, hi) != v
  }

  lemma {:induction false} Missed(lo: nat, hi: nat, g: nat) returns (v: nat)
    requires 0 < lo < hi && g <= lo && forall k :: 0 <= k < g ==> Rescale(k, lo, hi) == k
    ensures v < hi && Misses(v, lo, hi)
    decreases lo - g
  {
    if g == lo {
      v := lo;
    } else if Rescale(g, lo, hi) == g {
      v := Missed(lo, hi, g + 1);
    } else {
      v := g;
      if g > 0 { RescaleIncreasing(g - 1, g, lo, hi); }
      forall k | g < k < lo ensures Rescale(k, lo, hi) != v {
        RescaleIncreasing(g, k, lo, hi);
      }
    }
  }

  // ----- Reaching a point by moving given coefficients -----

  lemma Reach(g: Geometry, centre: seq<nat>, l: nat, coeffs: seq<nat>, p: seq<nat>) returns (c: nat)
    requires CentreOk(g, centre) && l < g.levels && !ScanNeeded(g, l)
    requires Increasing(coeffs, 0, |g.grid|) && |coeffs| == l + 1 && InRange(First(g.grid), p)
    requires forall j :: 0 <= j < |p| && j !in coeffs ==> p[j] == centre[j]
    ensures Upto(g, l) <= c < Upto(g, l + 1) && Point(g, centre, c) == p
    ensures Decode(g.grid, g.levels, c).coeffs == coeffs
  {
    hide Decode, End, MoveOk, Point, FineGrid, DigitsOk, Encode;
    Levels(g, l);
    var digits := seq(l + 1, i requires 0 <= i <= l => p[coeffs[i]]);
    forall i | 0 <= i <= l ensures digits[i] < Res(g.grid, coeffs[i], l) == g.grid[coeffs[i]][0] {
      FirstRes(g, l, coeffs[i]);
      assert LevelRes(g.grid, l)[coeffs[i]] == LevelRes(g.grid, 0)[coeffs[i]];
      assert p[coeffs[i]] < First(g.grid)[coeffs[i]];
    }
    var m := SomeMove(g.grid, g.levels, l, coeffs, digits);
    c := Encode(g.grid, g.levels, m);
    EncodeThenDecode(g.grid, g.levels, m);
    forall j | 0 <= j < |g.grid| ensures Point(g, centre, c)[j] == p[j] {
      if i :| 0 <= i <= l && coeffs[i] == j {
        FirstRes(g, l, j);
        Landing(g, centre, c, m, i);
        RescaleIdentity(p[j], g.grid[j][0]);
      } else {
        Staying(g, centre, c, j);
      }
    }
    assert Point(g, centre, c) == p;
  }

  // ----- The point that two subsets reach and no lower level does -----

  lemma WithoutMembers(s: seq<nat>, i: nat, first: nat, n: nat)
    requires Increasing(s, first, n) && i < |s|
    ensures Increasing(Without(s, i), first, n) && s[i] !in Without(s, i)
    ensures forall x :: x in s && x != s[i] ==> x in Without(s, i)
    ensures forall x :: x in Without(s, i) ==> x in s
  {
    forall x | x in s && x != s[i] ensures x in Without(s, i) {
      var k :| 0 <= k < |s| && s[k] == x;
      assert Without(s, i)[if k < i then k else k - 1] == x;
    }
  }

  /** Not the missed index at coefficient `j`; and never all zero, where a bootstrapping server stands. */
  function Around(g: Geometry, j: nat, v: nat): (p: seq<nat>)
    ensures |p| == |g.grid|
  {
    seq(|g.grid|, k => if k == j && v != 0 then 0 else 1)
  }

  function Away(g: Geometry, j: nat, v: nat, common: seq<nat>): (p: seq<nat>)
    ensures |p| == |g.grid|
  {
    seq(|g.grid|, k requires k >= 0 => if k == j then v else if k in common then 0 else 1)
  }

  lemma PointsOk(g: Geometry, j: nat, v: nat, common: seq<nat>)
    requires GeoOk(g) && j < |g.grid| && (forall k :: 0 <= k < |g.ended| ==> !g.ended[k])
    requires g.grid[j] != [] && v < g.grid[j][0]
    ensures CentreOk(g, Around(g, j, v)) && InRange(First(g.grid), Away(g, j, v, common))
    ensures CentreOk(g, Away(g, j, v, common))
  {
    SomeLevel(g);
    forall k | 0 <= k < |g.grid| ensures Around(g, j, v)[k] < First(g.grid)[k] && Away(g, j, v, common)[k] < First(g.grid)[k] {
      FirstRes(g, 0, k);
    }
  }

  /** No lower level reaches the point: too few coefficients, or the missed index. */
  lemma Unreached(g: Geometry, l: nat, j: nat, v: nat, common: seq<nat>, e: nat)
    requires GeoOk(g) && 1 <= l < g.levels && j < |g.grid| && (forall k :: 0 <= k < |g.ended| ==> !g.ended[k])
    requires l <= |g.grid[j]| && v < g.grid[j][0]
    requires Misses(v, Res(g.grid, j, l - 1), g.grid[j][0])
    requires Increasing(common, 0, |g.grid|) && |common| == l && j in common
    requires e < Upto(g, l) && CentreOk(g, Around(g, j, v))
    ensures Point(g, Around(g, j, v), e) != Away(g, j, v, common)
  {
    hide Decode, End, MoveOk, Point, FineGrid, DigitsOk, InRange;
    Levels(g, l);
    var k := LevelAt(g.grid, g.levels, e);
    if k >= l { UptoMono(g, l, k); }
    var m := MoveOf(g, k, e);
    var centre := Around(g, j, v);
    if |m.coeffs| < |common| {
      var i := LacksMore(common, m.coeffs, 0, |g.grid|);
      Staying(g, centre, e, common[i]);
    } else if j !in m.coeffs {
      Staying(g, centre, e, j);
    } else {
      var i := IndexIn(m.coeffs, j);
      DigitFacts(g, k, m, i);
      Landing(g, centre, e, m, i);
    }
  }

  /** Two subsets of `l + 1` that differ in one member each and share `l`, `j` among them. */
  lemma TwoSubsets(n: nat, l: nat, j: nat) returns (s: seq<nat>, t: seq<nat>, common: seq<nat>)
    requires 1 <= l && l + 2 <= n && j < n
    ensures Increasing(s, 0, n) && Increasing(t, 0, n) && Increasing(common, 0, n)
    ensures |s| == |t| == l + 1 && |common| == l && j in common && s != t
    ensures forall x :: x in common ==> x in s && x in t
  {
    hide Increasing;
    var start := if j + l + 2 <= n then j else n - l - 2;
    WindowIncreasing(start, l + 2, n);
    var all, q := Window(start, l + 2), j - start;
    var x, y := if q == 0 then 1 else 0, if q <= 1 then 2 else 1;
    s, t := Without(all, x), Without(all, y);
    common := Without(s, y - 1);
    WithoutMembers(all, x, 0, n);
    WithoutMembers(all, y, 0, n);
    WithoutMembers(s, y - 1, 0, n);
    assert s[y - 1] == all[y] && all[y] in s && all[q] == j;
  }

  /** Where skipping is not safe, some centre gets a place twice. */
  lemma SkipFails(g: Geometry, l: nat) returns (centre: seq<nat>, visited: set<nat>, c: nat, d: nat)
    requires GeoOk(g) && 1 <= l < g.levels && !ScanNeeded(g, l) && !SkipIsSafe(g, l)
    ensures Entered(g, centre, visited, l) && visited == Seen(g, centre, l)
    ensures exists k :: 0 <= k < |centre| && centre[k] != 0
    ensures c in LevelWork(g, centre, visited, l) && d in LevelWork(g, centre, visited, l)
    ensures c != d && c < Total(g) && d < Total(g) && Site(g, centre, c) == Site(g, centre, d)
  {
    hide Decode, End, MoveOk, Point, FineGrid, InRange, CodeOf, ScanNeeded, Increasing, LevelRes, Rescale, Misses, Away,
         CentreOk, Upto, Around, Without;
    var j := CoarserAt(g, l);
    FirstRes(g, l - 1, j);
    NoneEnded(g, l);
    var v := Missed(Res(g.grid, j, l - 1), g.grid[j][0], 0);
    var s, t, common := TwoSubsets(|g.grid|, l, j);
    PointsOk(g, j, v, common);
    centre := Around(g, j, v);
    var p := Away(g, j, v, common);
    AwayFrom(g, j, v, common);
    SomewhereElse(g, j, v);
    c := Reach(g, centre, l, s, p);
    d := Reach(g, centre, l, t, p);
    visited := Seen(g, centre, l);
    forall e | 0 <= e < Upto(g, l) ensures Site(g, centre, e) != CodeOf(g, p) {
      Unreached(g, l, j, v, common, e);
      PointIsCentreOk(g, centre, e);
      SameSite(g, Point(g, centre, e), p);
    }
    SameSite(g, centre, p);
  }

  ghost function Seen(g: Geometry, centre: seq<nat>, l: nat): (r: set<nat>)
    requires CentreOk(g, centre) && l <= g.levels
    ensures forall x :: x in r <==> x == CodeOf(g, centre) || exists e :: 0 <= e < Upto(g, l) && Site(g, centre, e) == x
  {
    {CodeOf(g, centre)} + set e | 0 <= e < Upto(g, l) :: Site(g, centre, e)
  }

  lemma CoarserAt(g: Geometry, l: nat) returns (j: nat)
    requires GeoOk(g) && 1 <= l < g.levels && !SkipIsSafe(g, l)
    ensures l + 2 <= |g.grid| && j < |g.grid| && l <= |g.grid[j]| && 2 <= Res(g.grid, j, l - 1) < g.grid[j][0]
  {
    j :| 0 <= j < |g.grid| && LevelRes(g.grid, l - 1)[j] != LevelRes(g.grid, 0)[j];
    FirstRes(g, l - 1, j);
  }

  lemma AwayFrom(g: Geometry, j: nat, v: nat, common: seq<nat>)
    requires j < |g.grid| && j in common
    ensures forall k :: 0 <= k < |g.grid| && k !in common ==> Away(g, j, v, common)[k] == Around(g, j, v)[k]
    ensures Away(g, j, v, common) != Around(g, j, v)
  {
    assert Away(g, j, v, common)[j] != Around(g, j, v)[j];
  }

  lemma SomewhereElse(g: Geometry, j: nat, v: nat)
    requires 2 <= |g.grid|
    ensures exists k :: 0 <= k < |g.grid| && Around(g, j, v)[k] != 0
  {
    assert Around(g, j, v)[if j == 0 then 1 else 0] == 1;
  }

  lemma NoneEnded(g: Geometry, l: nat)
    requires GeoOk(g) && l < g.levels && !ScanNeeded(g, l)
    ensures forall k :: 0 <= k < |g.ended| ==> !g.ended[k]
  {
  }

  /** The exact condition, for all centres and visited places. */
  lemma SkipRightIff(g: Geometry, l: nat)
    requires GeoOk(g) && 1 <= l < g.levels && !ScanNeeded(g, l)
    ensures NeverTwice(g, l) <==> SkipIsSafe(g, l)
  {
    hide Point, FineGrid, InRange, CodeOf, ScanNeeded, SkipIsSafe, Site, Total, Upto;
    if SkipIsSafe(g, l) {
      forall centre, visited, c, d |
        Entered(g, centre, visited, l) && c in LevelWork(g, centre, visited, l)
        && d in LevelWork(g, centre, visited, l) && c != d && c < Total(g) && d < Total(g)
        ensures Site(g, centre, c) != Site(g, centre, d)
      {
        UnscannedPair(g, centre, visited, l, c, d);
      }
    } else {
      var centre, visited, c, d := SkipFails(g, l);
    }
  }

  /** A grid the server accepts and that is not safe: four coefficients with resolutions 4, 2 and 4. */
  lemma UnsafeGrid() returns (g: Geometry)
    ensures GeoOk(g) && g.levels == 3 && |g.grid| == 4
    ensures forall j :: 0 <= j < 4 ==> g.grid[j] == [4, 2, 4]
    ensures !ScanNeeded(g, 2) && !NeverTwice(g, 2)
  {
    var r, b := [4, 2, 4], Box(0.0, 1.0, 0.0);
    g := Geometry([r, r, r, r], 3, [false, false, false, false], [b, b, b, b]);
    FourLists(g);
    hide NeverTwice, GeoOk, LevelRes;
    SkipRightIff(g, 2);
  }

  lemma FourLists(g: Geometry)
    requires |g.grid| == |g.ended| == |g.box| == 4 && g.levels == 3 && forall j :: 0 <= j < 4 ==> g.grid[j] == [4, 2, 4]
    ensures GeoOk(g) && LevelRes(g.grid, 2) == LevelRes(g.grid, 0) && LevelRes(g.grid, 1) != LevelRes(g.grid, 0)
  {
    assert LevelRes(g.grid, 1)[0] != LevelRes(g.grid, 0)[0];
  }
}
