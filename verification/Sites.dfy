/** The places complexities stand for around one centre, the work lists over them, and the coverage invariant. */
module Sites {
  import opened Combos
  import opened Coefficients
  import opened Positions
  import opened Tables
  import opened Zooming

  /** `fixed` is where a coefficient stays once its range has ended. */
  datatype Box = Box(from: real, range: real, fixed: real)

  /** What one build of the table and one box give: which grid point a complexity stands for depends on nothing else
      but the centre. */
  datatype Geometry = Geometry(grid: Grid, levels: nat, ended: seq<bool>, box: seq<Box>)

  /** What of a geometry goes on the wire, and all the objective depends on: the number of levels does not. */
  datatype Frame = Frame(grid: Grid, ended: seq<bool>, box: seq<Box>)

  function FrameOf(g: Geometry): Frame { Frame(g.grid, g.ended, g.box) }

  /** The lists of a server that is to move up to `intended` coefficients at once: each is as long as that. */
  ghost predicate Ample(grid: Grid, intended: nat) {
    && 1 <= intended <= |grid|
    && forall c :: 0 <= c < |grid| ==> Fine(grid[c]) && intended <= |grid[c]| <= |grid|
  }

  /** And its table. */
  ghost predicate Made(g: Geometry, limit: nat, intended: nat) {
    Ample(g.grid, intended) && g.levels == Built(g.grid, limit, intended, 0).0
  }

  /** Such a table has a level exactly if the first one fits, and then it is one a search can work with. */
  lemma MadeFine(g: Geometry, limit: nat, intended: nat)
    requires Made(g, limit, intended)
    ensures GridOk(g.grid, 1) && GridOk(g.grid, intended) && Built(g.grid, limit, intended, 0) == (g.levels, false)
    ensures g.levels >= 1 <==> End(g.grid, 1) <= limit
    ensures g.levels >= 1 ==> FineGrid(g.grid, g.levels)
  {
    EndStart(g.grid);
    assert GridOk(g.grid, intended);
    hide End, LevelEnding, Built;
    BuiltIsFitting(g.grid, limit, intended, 0);
    BuiltStep(g.grid, limit, intended, 0);
    LevelCompleteIff(g.grid, 0, limit);
    MadeGrid(g, limit, intended);
  }

  lemma MadeGrid(g: Geometry, limit: nat, intended: nat)
    requires Made(g, limit, intended)
    ensures g.levels <= intended && (g.levels >= 1 ==> FineGrid(g.grid, g.levels))
  {
    if g.levels >= 1 {
      forall j, l | 0 <= j < |g.grid| && 0 <= l < g.levels ensures Res(g.grid, j, l) <= g.grid[j][0] {
        assert Fine(g.grid[j]);
      }
    }
  }

  ghost predicate GeoOk(g: Geometry) {
    FineGrid(g.grid, g.levels) && |g.ended| == |g.box| == |g.grid|
  }

  /** A centre is a grid point, and coefficients that have ended stay at index zero. */
  ghost predicate CentreOk(g: Geometry, centre: seq<nat>) {
    && GeoOk(g) && InRange(First(g.grid), centre)
    && forall j :: 0 <= j < |centre| && g.ended[j] ==> centre[j] == 0
  }

  ghost function Total(g: Geometry): nat
    requires GeoOk(g)
  {
    End(g.grid, g.levels)
  }

  /** The first complexity past the first `level` levels. */
  ghost function Upto(g: Geometry, level: nat): (r: nat)
    requires GeoOk(g) && level <= g.levels
    ensures r <= Total(g) && (level == 0 ==> r == 0) && (level == g.levels ==> r == Total(g))
  {
    hide LevelSize;
    EndMono(g.grid, level, g.levels);
    End(g.grid, level)
  }

  /** The grid point complexity `c` stands for. */
  ghost function Point(g: Geometry, centre: seq<nat>, c: nat): (p: seq<nat>)
    requires CentreOk(g, centre) && c < Total(g)
    ensures |p| == |g.grid|
  {
    Position(g.grid, g.levels, g.ended, centre, c)
  }

  ghost function CodeOf(g: Geometry, p: seq<nat>): nat
    requires GeoOk(g) && |p| == |g.grid|
  {
    Code(First(g.grid), p)
  }

  /** The number under which that point is remembered. */
  ghost function Site(g: Geometry, centre: seq<nat>, c: nat): nat
    requires CentreOk(g, centre) && c < Total(g)
  {
    CodeOf(g, Point(g, centre, c))
  }

  lemma PointIsCentreOk(g: Geometry, centre: seq<nat>, c: nat)
    requires CentreOk(g, centre) && c < Total(g)
    ensures CentreOk(g, Point(g, centre, c))
  {
    hide Decode, End, MoveOk;
    TargetInRange(g.grid, g.levels, Decode(g.grid, g.levels, c), g.ended, centre);
  }

  /** A hit in the visited places means the same grid point. */
  lemma SameSite(g: Geometry, p: seq<nat>, q: seq<nat>)
    requires CentreOk(g, p) && CentreOk(g, q)
    ensures CodeOf(g, p) == CodeOf(g, q) <==> p == q
  {
    if CodeOf(g, p) == CodeOf(g, q) { CodeInjective(First(g.grid), p, q); }
  }

  lemma SameSiteSamePoint(g: Geometry, centre: seq<nat>, c: nat, d: nat)
    requires CentreOk(g, centre) && c < Total(g) && d < Total(g)
    ensures Site(g, centre, c) == Site(g, centre, d) <==> Point(g, centre, c) == Point(g, centre, d)
  {
    hide CentreOk, Point, Total, CodeOf;
    PointIsCentreOk(g, centre, c);
    PointIsCentreOk(g, centre, d);
    SameSite(g, Point(g, centre, c), Point(g, centre, d));
  }

  lemma UptoMono(g: Geometry, l: nat, m: nat)
    requires GeoOk(g) && l <= m <= g.levels
    ensures Upto(g, l) <= Upto(g, m)
  {
    EndMono(g.grid, l, m);
  }

  /** Recentring on complexity `c` a second time changes nothing. */
  lemma RecentreTwice(g: Geometry, centre: seq<nat>, c: nat)
    requires CentreOk(g, centre) && c < Total(g)
    ensures CentreOk(g, Point(g, centre, c))
    ensures Point(g, Point(g, centre, c), c) == Point(g, centre, c)
  {
    PointIsCentreOk(g, centre, c);
    hide Decode, End, MoveOk, FineGrid, CentreOk;
    var p := Point(g, centre, c);
    assert forall j :: 0 <= j < |g.grid| ==> Point(g, p, c)[j] == p[j];
  }

  // ----- Work lists -----

  /** The complexities in [lo, hi) whose place is not among `visited`. */
  ghost function Fresh(g: Geometry, centre: seq<nat>, visited: set<nat>, lo: nat, hi: nat): (r: set<nat>)
    requires CentreOk(g, centre) && hi <= Total(g)
    ensures forall c :: c in r <==> lo <= c < hi && Site(g, centre, c) !in visited
  {
    set c: nat | c < hi && lo <= c && Site(g, centre, c) !in visited
  }

  ghost predicate Inside(g: Geometry, work: set<nat>)
    requires GeoOk(g)
  {
    forall c :: c in work ==> c < Total(g)
  }

  /** `work` without the complexities that stand for the same place as a smaller one in it. */
  ghost function Firsts(g: Geometry, centre: seq<nat>, work: set<nat>): (r: set<nat>)
    requires CentreOk(g, centre) && Inside(g, work)
    ensures r <= work
  {
    set c | c in work && forall d :: d in work && d < c ==> Site(g, centre, d) != Site(g, centre, c)
  }

  lemma {:induction false} FirstExists(g: Geometry, centre: seq<nat>, work: set<nat>, c: nat) returns (d: nat)
    requires CentreOk(g, centre) && Inside(g, work) && c in work
    ensures d in Firsts(g, centre, work) && Site(g, centre, d) == Site(g, centre, c)
    decreases c
  {
    hide CentreOk, Total, Site;
    if e :| e in work && e < c && Site(g, centre, e) == Site(g, centre, c) {
      d := FirstExists(g, centre, work, e);
    } else {
      d := c;
    }
  }

  ghost predicate Distinct(g: Geometry, centre: seq<nat>, work: set<nat>)
    requires CentreOk(g, centre) && Inside(g, work)
  {
    forall c, d :: c in work && d in work && c != d ==> Site(g, centre, c) != Site(g, centre, d)
  }

  lemma FirstsDistinct(g: Geometry, centre: seq<nat>, work: set<nat>)
    requires CentreOk(g, centre) && Inside(g, work)
    ensures Inside(g, Firsts(g, centre, work)) && Distinct(g, centre, Firsts(g, centre, work))
    ensures forall c, d :: c in Firsts(g, centre, work) && d in work && Site(g, centre, c) == Site(g, centre, d) ==> c <= d
  {
    hide CentreOk, Total, Site;
  }

  /** The coverage invariant: every complexity below `hi` has been visited, or one that stands for the same place is
      still on the list. */
  ghost predicate Covered(g: Geometry, centre: seq<nat>, hi: nat, work: set<nat>, visited: set<nat>)
    requires CentreOk(g, centre) && Inside(g, work) && hi <= Total(g)
  {
    forall c :: 0 <= c < hi ==> Claimed(g, centre, work, visited, Site(g, centre, c))
  }

  ghost predicate Claimed(g: Geometry, centre: seq<nat>, work: set<nat>, visited: set<nat>, site: nat)
    requires CentreOk(g, centre) && Inside(g, work)
  {
    site in visited || exists d :: d in work && Site(g, centre, d) == site
  }

  lemma CoveredDone(g: Geometry, centre: seq<nat>, hi: nat, visited: set<nat>)
    requires CentreOk(g, centre) && hi <= Total(g) && Covered(g, centre, hi, {}, visited)
    ensures forall c :: 0 <= c < hi ==> Site(g, centre, c) in visited
  {
    hide CentreOk, Total, Site;
    forall c | 0 <= c < hi ensures Site(g, centre, c) in visited {
      assert Claimed(g, centre, {}, visited, Site(g, centre, c));
    }
  }

  lemma CoveredFresh(g: Geometry, centre: seq<nat>, lo: nat, hi: nat, visited: set<nat>)
    requires CentreOk(g, centre) && lo <= hi <= Total(g)
    requires forall c :: 0 <= c < lo ==> Site(g, centre, c) in visited
    ensures Inside(g, Fresh(g, centre, visited, lo, hi))
    ensures Covered(g, centre, hi, Fresh(g, centre, visited, lo, hi), visited)
  {
    hide CentreOk, Total, Site;
    var work := Fresh(g, centre, visited, lo, hi);
    forall c | 0 <= c < hi ensures Claimed(g, centre, work, visited, Site(g, centre, c)) {
      if c >= lo && Site(g, centre, c) !in visited { assert c in work; }
    }
  }

  lemma CoveredFirsts(g: Geometry, centre: seq<nat>, hi: nat, work: set<nat>, visited: set<nat>)
    requires CentreOk(g, centre) && Inside(g, work) && hi <= Total(g)
    requires Covered(g, centre, hi, work, visited)
    ensures Inside(g, Firsts(g, centre, work))
    ensures Covered(g, centre, hi, Firsts(g, centre, work), visited)
  {
    hide CentreOk, Total, Site, Firsts;
    forall c | 0 <= c < hi ensures Claimed(g, centre, Firsts(g, centre, work), visited, Site(g, centre, c)) {
      var s := Site(g, centre, c);
      assert Claimed(g, centre, work, visited, s);
      if s !in visited {
        var d :| d in work && Site(g, centre, d) == s;
        var e := FirstExists(g, centre, work, d);
      }
    }
  }

  /** Reported complexities leave the list as their places become visited. */
  lemma CoveredAbsorb(g: Geometry, centre: seq<nat>, hi: nat, work: set<nat>, visited: set<nat>, done: set<nat>)
    requires CentreOk(g, centre) && Inside(g, work) && Inside(g, done) && hi <= Total(g)
    requires Covered(g, centre, hi, work, visited)
    ensures Inside(g, work - done)
    ensures Covered(g, centre, hi, work - done, visited + SitesOf(g, centre, done))
  {
    hide CentreOk, Total, Site;
    forall c | 0 <= c < hi ensures Claimed(g, centre, work - done, visited + SitesOf(g, centre, done), Site(g, centre, c)) {
      var s := Site(g, centre, c);
      assert Claimed(g, centre, work, visited, s);
      if s !in visited {
        var d :| d in work && Site(g, centre, d) == s;
        assert d in work - done || s in SitesOf(g, centre, done);
      }
    }
  }

  ghost function SitesOf(g: Geometry, centre: seq<nat>, work: set<nat>): (r: set<nat>)
    requires CentreOk(g, centre) && Inside(g, work)
    ensures forall c :: c in work ==> Site(g, centre, c) in r
  {
    set c | c in work :: Site(g, centre, c)
  }

  lemma SitesTogether(g: Geometry, centre: seq<nat>, a: set<nat>, b: set<nat>)
    requires CentreOk(g, centre) && Inside(g, a + b)
    ensures Inside(g, a) && Inside(g, b)
    ensures SitesOf(g, centre, a + b) == SitesOf(g, centre, a) + SitesOf(g, centre, b)
  {
    hide CentreOk, Total, Site;
  }

  lemma SitesOne(g: Geometry, centre: seq<nat>, c: nat)
    requires CentreOk(g, centre) && c < Total(g)
    ensures SitesOf(g, centre, {c}) == {Site(g, centre, c)}
  {
    hide CentreOk, Total, Site;
  }

  lemma SitesNone(g: Geometry, centre: seq<nat>)
    requires CentreOk(g, centre)
    ensures SitesOf(g, centre, {}) == {}
  {
    hide CentreOk, Site;
  }
}
