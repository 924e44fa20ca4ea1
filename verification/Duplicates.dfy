/** When two complexities of one level stand for the same place, and when the server need not look for that. */
module Duplicates {
  import opened Combos
  import opened Coefficients
  import opened Positions
  import opened Sites

  /** The server scans a new level for duplicates if a coefficient has ended or a resolution differs from the first
      level's. */
  ghost predicate ScanNeeded(g: Geometry, l: nat)
    requires GeoOk(g) && l < g.levels
  {
    LevelRes(g.grid, l) != LevelRes(g.grid, 0) || exists j :: 0 <= j < |g.ended| && g.ended[j]
  }

  /** What makes skipping the scan of level `l` right: the level before is as fine as the first, or there is at most one
      subset of that size. */
  ghost predicate SkipIsSafe(g: Geometry, l: nat)
    requires GeoOk(g) && l < g.levels
  {
    l == 0 || l + 1 >= |g.grid| || LevelRes(g.grid, l - 1) == LevelRes(g.grid, 0)
  }

  ghost predicate SkipsSafely(g: Geometry)
    requires GeoOk(g)
  {
    forall l :: 1 <= l < g.levels && !ScanNeeded(g, l) ==> SkipIsSafe(g, l)
  }

  /** Resolutions that never grow from level to level are safe. */
  lemma NonIncreasingIsSafe(g: Geometry)
    requires GeoOk(g)
    requires forall j, l, m :: 0 <= j < |g.grid| && 0 <= l <= m < g.levels ==> Res(g.grid, j, m) <= Res(g.grid, j, l)
    ensures SkipsSafely(g)
  {
    forall l | 1 <= l < g.levels && !ScanNeeded(g, l) ensures SkipIsSafe(g, l) {
      assert forall j :: 0 <= j < |g.grid| ==> LevelRes(g.grid, l)[j] == LevelRes(g.grid, 0)[j];
      assert LevelRes(g.grid, l - 1) == LevelRes(g.grid, 0);
    }
  }

  lemma Levels(g: Geometry, l: nat)
    requires GeoOk(g) && l < g.levels
    ensures GridOk(g.grid, g.levels) && GridOk(g.grid, l + 1) && GridOk(g.grid, l)
  {
  }

  /** The first level's resolution is the finest, and at least two. */
  lemma FirstRes(g: Geometry, l: nat, j: nat)
    requires GeoOk(g) && l < g.levels && j < |g.grid|
    ensures l < |g.grid[j]| && 2 <= Res(g.grid, j, l) <= Res(g.grid, j, 0) == g.grid[j][0]
  {
    assert Res(g.grid, j, 0) <= g.grid[j][0];
  }

  lemma SomeLevel(g: Geometry)
    requires GeoOk(g)
    ensures 1 <= g.levels
  {
  }

  // ----- Moves of one level -----

  /** Complexity `c` as a move of level `l`. */
  lemma MoveOf(g: Geometry, l: nat, c: nat) returns (m: Move)
    requires GeoOk(g) && l < g.levels && Upto(g, l) <= c < Upto(g, l + 1)
    ensures c < Total(g) && MoveOk(g.grid, g.levels, m) && m == Decode(g.grid, g.levels, c) && m.level == l
    ensures Increasing(m.coeffs, 0, |g.grid|) && |m.coeffs| == |m.digits| == l + 1
    ensures SubOk(g.grid, l, m.coeffs) && DigitsOk(Radices(g.grid, l, m.coeffs), m.digits)
  {
    hide End, MoveOk, DigitsOk;
    LevelUnique(g.grid, g.levels, c, l);
    m := Decode(g.grid, g.levels, c);
    MoveParts(g.grid, g.levels, m);
  }

  lemma MoveParts(grid: Grid, levels: nat, m: Move)
    requires GridOk(grid, levels) && MoveOk(grid, levels, m)
    ensures GridOk(grid, m.level + 1) && SubOk(grid, m.level, m.coeffs)
    ensures Increasing(m.coeffs, 0, |grid|) && |m.coeffs| == |m.digits| == m.level + 1
    ensures DigitsOk(Radices(grid, m.level, m.coeffs), m.digits)
  {
    hide Subsets;
    SubsetsSound(0, m.level + 1, |grid|, m.index);
  }

  /** A subset is enumerated once, so a move is its subset and its digits. */
  lemma SameMove(grid: Grid, levels: nat, m: Move, n: Move)
    requires GridOk(grid, levels) && MoveOk(grid, levels, m) && MoveOk(grid, levels, n)
    requires m.level == n.level && m.coeffs == n.coeffs && m.digits == n.digits
    ensures m == n
  {
    hide Subsets, SubOk, DigitsOk;
    if m.index < n.index {
      SubsetsSorted(0, m.level + 1, |grid|, m.index, n.index);
    } else if n.index < m.index {
      SubsetsSorted(0, m.level + 1, |grid|, n.index, m.index);
    }
  }

  /** Every increasing subset with digits in range is a move. */
  lemma SomeMove(grid: Grid, levels: nat, l: nat, coeffs: seq<nat>, digits: seq<nat>) returns (m: Move)
    requires GridOk(grid, levels) && l < levels && |coeffs| == |digits| == l + 1 && Increasing(coeffs, 0, |grid|)
    requires forall i :: 0 <= i <= l ==> digits[i] < Res(grid, coeffs[i], l)
    ensures MoveOk(grid, levels, m) && m.level == l && m.coeffs == coeffs && m.digits == digits
  {
    hide Subsets;
    var i := SubsetsComplete(coeffs, 0, |grid|);
    m := Move(l, i, coeffs, digits);
    assert SubOk(grid, l, coeffs);
  }

  lemma IndexMember(s: seq<nat>, i: nat, first: nat, n: nat)
    requires i < |s| && Increasing(s, first, n)
    ensures s[i] in s && IndexIn(s, s[i]) == i
  {
    var k := IndexIn(s, s[i]);
  }

  /** Where a moved coefficient lands when nothing has ended. */
  lemma Landing(g: Geometry, centre: seq<nat>, c: nat, m: Move, i: nat)
    requires CentreOk(g, centre) && c < Total(g) && m == Decode(g.grid, g.levels, c)
    requires |m.coeffs| == |m.digits| && i < |m.coeffs| && Increasing(m.coeffs, 0, |g.grid|)
    requires m.level < |g.grid[m.coeffs[i]]| && g.grid[m.coeffs[i]] != []
    ensures Point(g, centre, c)[m.coeffs[i]] ==
              if g.ended[m.coeffs[i]] then 0
              else Rescale(m.digits[i], Res(g.grid, m.coeffs[i], m.level), g.grid[m.coeffs[i]][0])
  {
    hide Decode, End, MoveOk, FineGrid;
    IndexMember(m.coeffs, i, 0, |g.grid|);
  }

  lemma Staying(g: Geometry, centre: seq<nat>, c: nat, j: nat)
    requires CentreOk(g, centre) && c < Total(g) && j < |g.grid| && j !in Decode(g.grid, g.levels, c).coeffs
    ensures Point(g, centre, c)[j] == centre[j]
  {
    hide Decode, End, MoveOk, FineGrid;
  }

  /** Two moves of the same subset that land on the same point are the same, if the digits of coefficients that have
      ended agree. */
  lemma SameSubset(g: Geometry, centre: seq<nat>, l: nat, c: nat, d: nat)
    requires CentreOk(g, centre) && l < g.levels
    requires Upto(g, l) <= c < Upto(g, l + 1) && Upto(g, l) <= d < Upto(g, l + 1)
    requires Point(g, centre, c) == Point(g, centre, d)
    requires Decode(g.grid, g.levels, c).coeffs == Decode(g.grid, g.levels, d).coeffs
    requires forall j :: j in Decode(g.grid, g.levels, c).coeffs ==> j < |g.ended| && !g.ended[j]
    ensures c == d
  {
    hide Decode, End, MoveOk, Point, FineGrid, DigitsOk;
    Levels(g, l);
    var m := MoveOf(g, l, c);
    var n := MoveOf(g, l, d);
    forall i | 0 <= i <= l ensures m.digits[i] == n.digits[i] {
      DigitFacts(g, l, m, i);
      DigitFacts(g, l, n, i);
      Landing(g, centre, c, m, i);
      Landing(g, centre, d, n, i);
      var lo, hi := Res(g.grid, m.coeffs[i], l), g.grid[m.coeffs[i]][0];
      assert m.coeffs[i] in m.coeffs;
      if m.digits[i] < n.digits[i] {
        RescaleIncreasing(m.digits[i], n.digits[i], lo, hi);
      } else if n.digits[i] < m.digits[i] {
        RescaleIncreasing(n.digits[i], m.digits[i], lo, hi);
      }
    }
    SameMove(g.grid, g.levels, m, n);
    DecodeThenEncode(g.grid, g.levels, c);
    DecodeThenEncode(g.grid, g.levels, d);
  }

  lemma DigitFacts(g: Geometry, l: nat, m: Move, i: nat)
    requires GeoOk(g) && l < g.levels && |m.coeffs| == |m.digits| == l + 1 && i <= l
    requires SubOk(g.grid, l, m.coeffs) && DigitsOk(Radices(g.grid, l, m.coeffs), m.digits)
    ensures m.coeffs[i] < |g.grid| && l < |g.grid[m.coeffs[i]]| && g.grid[m.coeffs[i]] != []
    ensures m.digits[i] < Res(g.grid, m.coeffs[i], l) <= g.grid[m.coeffs[i]][0]
  {
    assert m.digits[i] < Radices(g.grid, l, m.coeffs)[i];
  }

  lemma HeadAndTail(s: seq<nat>, first: nat, n: nat)
    requires Increasing(s, first, n) && s != []
    ensures Increasing(s[1..], first, n) && s == [s[0]] + s[1..]
    ensures forall x :: x in s[1..] ==> s[0] < x
  {
  }

  /** Of two different subsets of one size, the first has a member the second lacks. */
  lemma {:induction false} Lacks(a: seq<nat>, b: seq<nat>, first: nat, n: nat) returns (i: nat)
    requires Increasing(a, first, n) && Increasing(b, first, n) && |a| == |b| && a != b
    ensures i < |a| && a[i] !in b
    decreases |a|
  {
    HeadAndTail(a, first, n);
    HeadAndTail(b, first, n);
    hide Increasing;
    if a[0] < b[0] {
      i := 0;
    } else if a[0] == b[0] {
      i := Lacks(a[1..], b[1..], first, n);
      assert a[1..][i] in a[1..];
      i := i + 1;
    } else {
      i := LacksMore(a, b[1..], first, n);
      assert a[i] in a;
    }
  }

  lemma {:induction false} LacksMore(a: seq<nat>, b: seq<nat>, first: nat, n: nat) returns (i: nat)
    requires Increasing(a, first, n) && Increasing(b, first, n) && |a| > |b|
    ensures i < |a| && a[i] !in b
    decreases |a| + |b|
  {
    HeadAndTail(a, first, n);
    if b == [] {
      return 0;
    }
    HeadAndTail(b, first, n);
    hide Increasing;
    if a[0] < b[0] {
      i := 0;
    } else if a[0] == b[0] {
      i := LacksMore(a[1..], b[1..], first, n);
      assert a[1..][i] in a[1..];
      i := i + 1;
    } else {
      i := LacksMore(a, b[1..], first, n);
      assert a[i] in a;
    }
  }

  /** The move of the level below that leaves out the `i`-th coefficient. */
  lemma FewerMove(g: Geometry, l: nat, m: Move, i: nat) returns (n: Move)
    requires GeoOk(g) && 1 <= l < g.levels && |m.coeffs| == |m.digits| == l + 1 && i <= l
    requires Increasing(m.coeffs, 0, |g.grid|) && SubOk(g.grid, l, m.coeffs) && DigitsOk(Radices(g.grid, l, m.coeffs), m.digits)
    requires LevelRes(g.grid, l) == LevelRes(g.grid, l - 1)
    ensures GridOk(g.grid, g.levels) && MoveOk(g.grid, g.levels, n) && n.level == l - 1
    ensures n.coeffs == Without(m.coeffs, i) && n.digits == Without(m.digits, i)
  {
    hide MoveOk, FineGrid, DigitsOk;
    Levels(g, l);
    var coeffs, digits := Without(m.coeffs, i), Without(m.digits, i);
    forall k | 0 <= k < l ensures digits[k] < Res(g.grid, coeffs[k], l - 1) {
      var k' := if k < i then k else k + 1;
      DigitFacts(g, l, m, k');
      assert LevelRes(g.grid, l)[coeffs[k]] == LevelRes(g.grid, l - 1)[coeffs[k]];
    }
    n := SomeMove(g.grid, g.levels, l - 1, coeffs, digits);
  }

  /** A complexity of level `l` that leaves its `i`-th coefficient at the centre stands for a place of the level below,
      if that level is as fine as the first and nothing has ended. */
  lemma OneFewer(g: Geometry, centre: seq<nat>, l: nat, c: nat, m: Move, i: nat) returns (e: nat)
    requires CentreOk(g, centre) && 1 <= l < g.levels && Upto(g, l) <= c < Upto(g, l + 1)
    requires m == Decode(g.grid, g.levels, c) && i <= l && |m.coeffs| == l + 1 && m.coeffs[i] < |centre|
    requires Point(g, centre, c)[m.coeffs[i]] == centre[m.coeffs[i]]
    requires LevelRes(g.grid, l) == LevelRes(g.grid, l - 1)
    ensures e < Upto(g, l) && Point(g, centre, e) == Point(g, centre, c)
  {
    hide Decode, End, MoveOk, Point, FineGrid, DigitsOk, Encode;
    Levels(g, l);
    var m' := MoveOf(g, l, c);
    var n := FewerMove(g, l, m, i);
    e := Encode(g.grid, g.levels, n);
    EncodeThenDecode(g.grid, g.levels, n);
    forall j | 0 <= j < |g.grid| ensures Point(g, centre, e)[j] == Point(g, centre, c)[j] {
      SameLanding(g, centre, l, c, e, m, n, i, j);
    }
    assert Point(g, centre, e) == Point(g, centre, c);
  }

  function Without(s: seq<nat>, i: nat): (r: seq<nat>)
    requires i < |s|
    ensures |r| == |s| - 1
    ensures forall k :: 0 <= k < |r| ==> r[k] == if k < i then s[k] else s[k + 1]
  {
    s[..i] + s[i + 1..]
  }

  lemma NotWithout(s: seq<nat>, i: nat, x: nat)
    requires i < |s| && x != s[i] && x !in Without(s, i)
    ensures x !in s
  {
    assert s == s[..i] + [s[i]] + s[i + 1..];
  }

  /** A coefficient that both move to the same digit. */
  lemma BothLand(g: Geometry, centre: seq<nat>, l: nat, c: nat, e: nat, m: Move, n: Move, i: nat, k: nat)
    requires CentreOk(g, centre) && 1 <= l < g.levels && c < Total(g) && e < Total(g)
    requires m == Decode(g.grid, g.levels, c) && n == Decode(g.grid, g.levels, e) && m.level == l && n.level == l - 1
    requires i <= l && |m.coeffs| == |m.digits| == l + 1 && |n.coeffs| == |n.digits| == l && k < l
    requires Increasing(m.coeffs, 0, |g.grid|) && Increasing(n.coeffs, 0, |g.grid|)
    requires SubOk(g.grid, l, m.coeffs) && DigitsOk(Radices(g.grid, l, m.coeffs), m.digits)
    requires n.coeffs[k] == m.coeffs[i] && n.digits[k] == m.digits[i]
    requires GridOk(g.grid, l + 1) && GridOk(g.grid, l) && LevelRes(g.grid, l) == LevelRes(g.grid, l - 1)
    ensures Point(g, centre, e)[m.coeffs[i]] == Point(g, centre, c)[m.coeffs[i]]
  {
    hide Decode, End, MoveOk, Point, FineGrid, DigitsOk, InRange, SubOk, Rescale, Total;
    DigitFacts(g, l, m, i);
    Landing(g, centre, c, m, i);
    Landing(g, centre, e, n, k);
    assert LevelRes(g.grid, l)[m.coeffs[i]] == LevelRes(g.grid, l - 1)[m.coeffs[i]];
  }

  lemma SameLanding(g: Geometry, centre: seq<nat>, l: nat, c: nat, e: nat, m: Move, n: Move, i: nat, j: nat)
    requires CentreOk(g, centre) && 1 <= l < g.levels && Upto(g, l) <= c < Upto(g, l + 1)
    requires Upto(g, l - 1) <= e < Upto(g, l)
    requires m == Decode(g.grid, g.levels, c) && n == Decode(g.grid, g.levels, e)
    requires i <= l && |m.coeffs| == |m.digits| == l + 1 && m.coeffs[i] < |centre| && j < |g.grid|
    requires n.coeffs == Without(m.coeffs, i) && n.digits == Without(m.digits, i)
    requires Point(g, centre, c)[m.coeffs[i]] == centre[m.coeffs[i]]
    requires LevelRes(g.grid, l) == LevelRes(g.grid, l - 1)
    ensures Point(g, centre, e)[j] == Point(g, centre, c)[j]
  {
    hide Decode, End, MoveOk, Point, FineGrid, DigitsOk, InRange, SubOk, Upto, Rescale, Radices, LevelRes, GeoOk;
    Levels(g, l);
    var m' := MoveOf(g, l, c);
    var n' := MoveOf(g, l - 1, e);
    if j == m.coeffs[i] {
      Staying(g, centre, e, j);
    } else if k :| 0 <= k < |n.coeffs| && n.coeffs[k] == j {
      BothLand(g, centre, l, c, e, m, n, if k < i then k else k + 1, k);
    } else {
      NotWithout(m.coeffs, i, j);
      Staying(g, centre, e, j);
      Staying(g, centre, c, j);
    }
  }

  // ----- The scan that is skipped -----

  /** Without ended coefficients, two complexities of a level that need no scan stand for the same place only if a lower
      level reaches that place too. */
  lemma UnscannedPair(g: Geometry, centre: seq<nat>, visited: set<nat>, l: nat, c: nat, d: nat)
    requires CentreOk(g, centre) && 1 <= l < g.levels && !ScanNeeded(g, l) && SkipIsSafe(g, l)
    requires forall e :: 0 <= e < Upto(g, l) ==> Site(g, centre, e) in visited
    requires Upto(g, l) <= c < Upto(g, l + 1) && Upto(g, l) <= d < Upto(g, l + 1) && c != d
    requires Site(g, centre, c) !in visited
    ensures Site(g, centre, c) != Site(g, centre, d)
  {
    hide Decode, End, MoveOk, Point, FineGrid, DigitsOk, Site, Upto, Total;
    SameSiteSamePoint(g, centre, c, d);
    if Point(g, centre, c) == Point(g, centre, d) {
      var m := MoveOf(g, l, c);
      var n := MoveOf(g, l, d);
      if m.coeffs == n.coeffs {
        SameSubset(g, centre, l, c, d);
      } else {
        var i := Lacks(m.coeffs, n.coeffs, 0, |g.grid|);
        Staying(g, centre, d, m.coeffs[i]);
        NotAll(m.coeffs, n.coeffs, i, |g.grid|);
        var e := OneFewer(g, centre, l, c, m, i);
        SameSiteSamePoint(g, centre, c, e);
      }
    }
  }

  /** A subset that lacks some coefficient is not the one subset of all. */
  lemma NotAll(a: seq<nat>, b: seq<nat>, i: nat, n: nat)
    requires Increasing(a, 0, n) && Increasing(b, 0, n) && |a| == |b| && i < |a| && a[i] !in b
    ensures |a| < n
  {
    IncreasingRoom(a, 0, n);
    if |b| == n { AllIn(b, 0, n, a[i]); }
  }

  lemma {:induction false} AllIn(b: seq<nat>, first: nat, n: nat, x: nat)
    requires Increasing(b, first, n) && first + |b| == n && first <= x < n
    ensures x in b
    decreases |b|
  {
    if b[0] > first {
      assert Increasing(b, first + 1, n);
      IncreasingRoom(b, first + 1, n);
    } else if x > first {
      assert Increasing(b[1..], first + 1, n);
      AllIn(b[1..], first + 1, n, x);
    }
  }

  /** At the first level, an unvisited place differs from the centre in exactly the moved coefficient. */
  lemma FirstLevelPair(g: Geometry, centre: seq<nat>, visited: set<nat>, c: nat, d: nat)
    requires CentreOk(g, centre) && CodeOf(g, centre) in visited
    requires c < Upto(g, 1) && d < Upto(g, 1) && c != d
    requires Site(g, centre, c) !in visited
    ensures Site(g, centre, c) != Site(g, centre, d)
  {
    hide Decode, End, MoveOk, Point, FineGrid, DigitsOk, Upto, Total, CodeOf;
    SameSiteSamePoint(g, centre, c, d);
    if Point(g, centre, c) == Point(g, centre, d) {
      SomeLevel(g);
      var m := MoveOf(g, 0, c);
      var n := MoveOf(g, 0, d);
      var j := m.coeffs[0];
      assert m.coeffs == [j];
      var p := Point(g, centre, c);
      assert p != centre;
      forall k | 0 <= k < |g.grid| && k != j ensures p[k] == centre[k] {
        Staying(g, centre, c, k);
      }
      if m.coeffs != n.coeffs {
        Staying(g, centre, d, j);
      } else if g.ended[j] {
        Levels(g, 0);
        DigitFacts(g, 0, m, 0);
        Landing(g, centre, c, m, 0);
        EndedStays(g, centre, j);
      } else {
        SameSubset(g, centre, 0, c, d);
      }
    }
  }

  lemma EndedStays(g: Geometry, centre: seq<nat>, j: nat)
    requires CentreOk(g, centre) && j < |g.grid| && g.ended[j]
    ensures centre[j] == 0
  {
  }

  // ----- The list of a level -----

  ghost function LevelWork(g: Geometry, centre: seq<nat>, visited: set<nat>, l: nat): (r: set<nat>)
    requires CentreOk(g, centre) && l < g.levels
  {
    var unvisited := Fresh(g, centre, visited, Upto(g, l), Upto(g, l + 1));
    if l > 0 && ScanNeeded(g, l) then
      assert Inside(g, unvisited);
      Firsts(g, centre, unvisited)
    else unvisited
  }

  /** A level is entered once everything below it has been visited. The list then covers the level, holds no visited
      place, and, where the skipped scans are safe, no place twice. */
  lemma LevelWorkFacts(g: Geometry, centre: seq<nat>, visited: set<nat>, l: nat)
    requires CentreOk(g, centre) && l < g.levels && Upto(g, l) <= Upto(g, l + 1)
    requires forall e :: 0 <= e < Upto(g, l) ==> Site(g, centre, e) in visited
    requires CodeOf(g, centre) in visited
    ensures
      var work := LevelWork(g, centre, visited, l);
      && Inside(g, work) && Covered(g, centre, Upto(g, l + 1), work, visited)
      && (forall c :: c in work ==> Upto(g, l) <= c < Upto(g, l + 1) && Site(g, centre, c) !in visited)
      && (SkipsSafely(g) ==> Distinct(g, centre, work))
  {
    hide Total, Site, Upto, Covered, Firsts, CodeOf, FineGrid, LevelRes, ScanNeeded, SkipIsSafe, InRange;
    var unvisited := Fresh(g, centre, visited, Upto(g, l), Upto(g, l + 1));
    CoveredFresh(g, centre, Upto(g, l), Upto(g, l + 1), visited);
    CoveredFirsts(g, centre, Upto(g, l + 1), unvisited, visited);
    FirstsDistinct(g, centre, unvisited);
    if SkipsSafely(g) && !(l > 0 && ScanNeeded(g, l)) {
      forall c, d | c in unvisited && d in unvisited && c != d ensures Site(g, centre, c) != Site(g, centre, d) {
        if l == 0 {
          FirstLevelPair(g, centre, visited, c, d);
        } else {
          UnscannedPair(g, centre, visited, l, c, d);
        }
      }
    }
  }

  // ----- Dropping visited places -----

  /** `work` without the complexities in [lo, hi) whose place is visited. */
  ghost function Reduced(g: Geometry, centre: seq<nat>, work: set<nat>, visited: set<nat>, lo: nat, hi: nat): (r: set<nat>)
    requires CentreOk(g, centre) && Inside(g, work)
    ensures r <= work
  {
    set c | c in work && !(lo <= c < hi && Site(g, centre, c) in visited)
  }

  lemma ReducedNone(g: Geometry, centre: seq<nat>, work: set<nat>, visited: set<nat>, lo: nat)
    requires CentreOk(g, centre) && Inside(g, work)
    ensures Reduced(g, centre, work, visited, lo, lo) == work
  {
  }

  lemma ReducedStep(g: Geometry, centre: seq<nat>, work: set<nat>, visited: set<nat>, lo: nat, i: nat)
    requires CentreOk(g, centre) && Inside(g, work) && lo <= i < Total(g)
    ensures Reduced(g, centre, work, visited, lo, i + 1)
         == Reduced(g, centre, work, visited, lo, i) - if Site(g, centre, i) in visited then {i} else {}
  {
    hide Site, CentreOk, Total;
  }

  /** All of [lo, hi) reduced is what is fresh there. */
  lemma ReducedFresh(g: Geometry, centre: seq<nat>, work: set<nat>, visited: set<nat>, lo: nat, hi: nat)
    requires CentreOk(g, centre) && Inside(g, work) && hi <= Total(g)
    requires forall c :: c in work <==> lo <= c && c < hi
    ensures Reduced(g, centre, work, visited, lo, hi) == Fresh(g, centre, visited, lo, hi)
  {
    hide Site, CentreOk, Total;
  }

  // ----- A scan in ascending order -----

  /** `uniques` are the places of the members of `work` below `x`, and `dups` those of them that came too late. */
  ghost predicate Scanned(g: Geometry, centre: seq<nat>, work: set<nat>, x: nat, uniques: set<nat>, dups: set<nat>)
    requires CentreOk(g, centre) && Inside(g, work)
  {
    && (forall c :: c in work && c < x ==> Site(g, centre, c) in uniques)
    && (forall s :: s in uniques ==> exists c :: c in work && c < x && Site(g, centre, c) == s)
    && (forall c :: c in dups <==> c in work && c < x && c !in Firsts(g, centre, work))
  }

  lemma ScanSkip(g: Geometry, centre: seq<nat>, work: set<nat>, x: nat, y: nat, uniques: set<nat>, dups: set<nat>)
    requires CentreOk(g, centre) && Inside(g, work) && x <= y && Scanned(g, centre, work, x, uniques, dups)
    requires forall c :: c in work ==> c < x || y <= c
    ensures Scanned(g, centre, work, y, uniques, dups)
  {
    hide CentreOk, Site, Firsts, Total;
  }

  lemma ScanStep(g: Geometry, centre: seq<nat>, work: set<nat>, x: nat, uniques: set<nat>, dups: set<nat>)
    requires CentreOk(g, centre) && Inside(g, work) && Scanned(g, centre, work, x, uniques, dups) && x in work
    ensures
      var s := Site(g, centre, x);
      Scanned(g, centre, work, x + 1, uniques + {s}, if s in uniques then dups + {x} else dups)
  {
    hide CentreOk, Site, Total;
    var s := Site(g, centre, x);
    forall t | t in uniques + {s} ensures exists c :: c in work && c < x + 1 && Site(g, centre, c) == t {
      if t == s { assert Site(g, centre, x) == t; }
    }
  }

  lemma ScanDone(g: Geometry, centre: seq<nat>, work: set<nat>, x: nat, uniques: set<nat>, dups: set<nat>)
    requires CentreOk(g, centre) && Inside(g, work) && Scanned(g, centre, work, x, uniques, dups)
    requires forall c :: c in work ==> c < x
    ensures work - dups == Firsts(g, centre, work)
  {
    hide CentreOk, Site, Total;
  }

  /** The scan after bootstrapping finds no unvisited place twice: with the centre visited there is none. */
  lemma BootScanIdle(g: Geometry, centre: seq<nat>, visited: set<nat>, work: set<nat>)
    requires CentreOk(g, centre) && 1 <= g.levels && CodeOf(g, centre) in visited
    requires Inside(g, work) && forall c :: c in work <==> 0 <= c && c < Upto(g, 1)
    ensures Reduced(g, centre, work, visited, 0, Upto(g, 1)) - (work - Firsts(g, centre, work))
         == Fresh(g, centre, visited, 0, Upto(g, 1))
  {
    ReducedFresh(g, centre, work, visited, 0, Upto(g, 1));
    AllFirst(g, centre, visited, work);
  }

  lemma AllFirst(g: Geometry, centre: seq<nat>, visited: set<nat>, work: set<nat>)
    requires CentreOk(g, centre) && 1 <= g.levels && CodeOf(g, centre) in visited
    requires Inside(g, work) && forall c :: c in work <==> 0 <= c && c < Upto(g, 1)
    ensures Fresh(g, centre, visited, 0, Upto(g, 1)) <= Firsts(g, centre, work)
  {
    hide Site, Upto, CodeOf, FineGrid, InRange;
    forall c, d | c in Fresh(g, centre, visited, 0, Upto(g, 1)) && d in work && d < c
      ensures Site(g, centre, d) != Site(g, centre, c)
    {
      FirstLevelPair(g, centre, visited, c, d);
    }
  }
}
