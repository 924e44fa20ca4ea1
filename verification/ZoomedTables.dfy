/** What mixed zoom levels do to the tables: zoom levels the controller accepts, and runs of a fresh task whose first shrink
    brings a table at which a peer reads past a list, or builds more levels than the server, or the server is left without
    any. */
module ZoomedTables {
  import opened Combos
  import opened Positions
  import opened Tables
  import opened Zooming
  import opened Sites
  import opened Views
  import opened Search
  import opened Protocol
  import opened Runs
  import opened FlatRuns
  import opened ShrunkTables
  import S = Shrink

  function StageGrid(stage: Stage): (g: Grid)
    ensures |g| == |stage.coeffs| && forall c :: 0 <= c < |g| ==> g[c] == stage.coeffs[c].resolutions
  {
    seq(|stage.coeffs|, c requires 0 <= c < |stage.coeffs| => stage.coeffs[c].resolutions)
  }

  /** What the controller lets through: each zoom level, taken alone, fits whole. */
  ghost predicate Accepted(lists: Grid, stages: seq<Stage>, limit: nat) {
    && lists != [] && 1 <= |lists[0]| <= |lists|
    && (forall c :: 0 <= c < |lists| ==> Fine(lists[c]) && |lists[c]| == |lists[0]|)
    && GridOk(lists, |lists[0]|) && End(lists, |lists[0]|) <= limit
    && forall k :: 0 <= k < |stages| ==> AcceptedStage(stages[k], |lists|, limit)
  }

  ghost predicate AcceptedStage(stage: Stage, n: nat, limit: nat) {
    StageOk(stage, n) && GridOk(StageGrid(stage), stage.atOnce) && End(StageGrid(stage), stage.atOnce) <= limit
  }

  const TWO: Grid := [[4, 4], [4, 4], [4, 4]]
  const THREE: Grid := [[4, 4, 4], [4, 4, 4], [4, 4, 4]]

  /** Three coefficients at once, for those whose ranges are to pass. */
  function ThreeAtOnce(passing: seq<bool>, ranges: seq<real>): Stage
    requires |passing| == |ranges| == 3
  {
    Stage(3, seq(3, c requires 0 <= c < 3 => Refinement(if passing[c] then ranges[c] else ranges[c] / 2.0, 0.0, [4, 4, 4])))
  }

  ghost predicate Positive(ranges: seq<real>) { forall c :: 0 <= c < |ranges| ==> ranges[c] > 0.0 }

  lemma StageFacts(passing: seq<bool>, ranges: seq<real>, limit: nat)
    requires |passing| == |ranges| == 3 && Positive(ranges) && GridOk(THREE, 3) && End(THREE, 3) <= limit
    ensures AcceptedStage(ThreeAtOnce(passing, ranges), 3, limit)
    ensures AllPass(ThreeAtOnce(passing, ranges), ranges) <==> passing[0] && passing[1] && passing[2]
    ensures forall c :: 0 <= c < 3 ==> (Passes(ThreeAtOnce(passing, ranges), c, ranges[c]) <==> passing[c])
  {
    hide End;
    var stage := ThreeAtOnce(passing, ranges);
    assert StageGrid(stage) == THREE;
    assert StageOk(stage, 3);
    assert Passes(stage, 0, ranges[0]) == passing[0] && Passes(stage, 1, ranges[1]) == passing[1];
    assert Passes(stage, 2, ranges[2]) == passing[2];
  }

  lemma BaseAccepted(limit: nat)
    requires GridOk(THREE, 3) && End(THREE, 3) <= limit
    ensures Accepted(TWO, [], limit)
  {
    hide End;
    assert Longer(TWO, THREE);
    EndMono(THREE, 2, 3);
    SameEnd(TWO, THREE, 2, 2);
  }

  const MIXED: Grid := [[4, 4, 4], [4, 4], [4, 4]]

  lemma OneGoes(stages: seq<Stage>, ranges: seq<real>)
    requires |ranges| == 3 && stages == [ThreeAtOnce([true, false, false], ranges)]
    requires !AllPass(stages[0], ranges)
    requires forall c :: 0 <= c < 3 ==> (Passes(stages[0], c, ranges[c]) <==> c == 0)
    ensures Sized(stages, 3) && Intended(stages, ranges, 2) == 2
    ensures forall c :: 0 <= c < 3 ==> ChosenList(stages, c, ranges[c], TWO[c]) != []
    ensures Refined(stages, ranges, TWO, 2) == MIXED
  {
    assert stages[..0] == [];
    assert Latest(stages, 0, ranges[0]) == 1 && Latest(stages, 1, ranges[1]) == 0 && Latest(stages, 2, ranges[2]) == 0;
    assert Refined(stages, ranges, TWO, 2) == MIXED;
  }

  lemma MixedBuilds(limit: nat)
    requires GridOk(THREE, 3) && End(THREE, 3) <= limit
    ensures Built(MIXED, limit, 2, 0) == (2, false) && Built(MIXED, limit, 3, 0) == (2, true)
  {
    hide End, Built, LevelEnding;
    assert Longer(MIXED, THREE);
    EndMono(THREE, 2, 3);
    SameEnd(MIXED, THREE, 2, 2);
    BuiltReaches(MIXED, limit, 2, 2, 0);
    BuiltStart(MIXED, limit, 2);
    BuiltReaches(MIXED, limit, 3, 2, 0);
    BuiltStep(MIXED, limit, 3, 2);
    PastTwo(MIXED, limit);
  }

  lemma PastTwo(grid: Grid, limit: nat)
    requires |grid| == 3 && GridOk(grid, 2) && |grid[1]| == 2 && End(grid, 2) <= limit
    ensures LevelEnding(grid, 2, limit).Past?
  {
    hide End, Subsets;
    var subs := Subsets(0, 3, 3);
    var i := SubsetsComplete([0, 1, 2], 0, 3);
    SubsetsSound(0, 3, 3, 0);
    assert subs[0][0] < subs[0][1] < subs[0][2];
    assert !SubOk(grid, 2, subs[0]);
    assert subs[..0] == [];
    LayNone(grid, 2, End(grid, 2));
    PastFrom(grid, 2, subs, End(grid, 2), limit, 0);
  }

  lemma AllGo(stages: seq<Stage>, ranges: seq<real>)
    requires |ranges| == 3 && stages == [ThreeAtOnce([true, false, false], ranges), ThreeAtOnce([false, true, true], ranges)]
    requires !AllPass(stages[0], ranges) && !AllPass(stages[1], ranges)
    requires forall c :: 0 <= c < 3 ==> (Passes(stages[0], c, ranges[c]) <==> c == 0)
    requires forall c :: 0 <= c < 3 ==> (Passes(stages[1], c, ranges[c]) <==> c != 0)
    ensures Sized(stages, 3) && Intended(stages, ranges, 2) == 2
    ensures forall c :: 0 <= c < 3 ==> ChosenList(stages, c, ranges[c], TWO[c]) != []
    ensures Refined(stages, ranges, TWO, 2) == THREE
  {
    hide Passes, AllPass;
    var k0, k1, k2 := Latest(stages, 0, ranges[0]), Latest(stages, 1, ranges[1]), Latest(stages, 2, ranges[2]);
    assert !(k0 == 0 || k1 == 0 || k2 == 0);
    assert LatestOfAll(stages, ranges) == 0;
    forall c | 0 <= c < 3 ensures ChosenList(stages, c, ranges[c], TWO[c]) == [4, 4, 4] {
    }
    assert Refined(stages, ranges, TWO, 2) == THREE;
  }

  lemma ThreeBuilds(limit: nat)
    requires GridOk(THREE, 3) && End(THREE, 3) <= limit
    ensures Built(THREE, limit, 2, 0) == (2, false) && Built(THREE, limit, 3, 0) == (3, false)
  {
    hide End, Built, LevelEnding;
    EndMono(THREE, 2, 3);
    BuiltReaches(THREE, limit, 2, 2, 0);
    BuiltStart(THREE, limit, 2);
    BuiltReaches(THREE, limit, 3, 3, 0);
    BuiltStart(THREE, limit, 3);
  }

  lemma Singles()
    ensures Subsets(0, 1, 2) == [[0], [1]]
  {
    SubsetsStep(0, 1, 2);
    SubsetsStep(1, 1, 2);
    SubsetsStep(2, 1, 2);
    SubsetsStep(1, 0, 2);
    SubsetsStep(2, 0, 2);
    hide Subsets;
    assert Under([0], [[]])[0] == [0] + [] == [0] && Under([1], [[]])[0] == [1] + [] == [1];
    assert Under([0], [[]]) == [[0]] && Under([1], [[]]) == [[1]];
  }

  lemma OneRadix(a: nat)
    ensures Product([a]) == a
  {
    assert [a][..0] == [];
  }

  lemma FirstOfTwo(a: nat, b: nat)
    requires a >= 2 && b >= 2
    ensures GridOk([[a], [b]], 1) && End([[a], [b]], 1) == a + b
  {
    var grid: Grid := [[a], [b]];
    assert GridOk(grid, 1);
    Singles();
    var subs: seq<seq<nat>> := [[0], [1]];
    var rest: seq<seq<nat>> := [[1]];
    LevelStep(grid, 0);
    TableStart(grid);
    assert Radices(grid, 0, [0]) == [a] && Radices(grid, 0, [1]) == [b];
    OneRadix(a);
    OneRadix(b);
    LayHead(grid, 0, subs, 0);
    assert subs[1..] == rest && rest[1..] == [];
    LayHead(grid, 0, rest, 0);
    hide Subsets, LaySize, Lay, End, Table, Product, Radices;
    LayNone(grid, 0, 0);
  }

  const UNEVEN: Grid := [[2], [8]]

  /** A zoom level for the first coefficient alone: it becomes as fine as the other one is. */
  function FirstFiner(ranges: seq<real>): Stage
    requires |ranges| == 2
  {
    Stage(1, [Refinement(ranges[0], 0.0, [8]), Refinement(ranges[1] / 2.0, 0.0, [2])])
  }

  lemma FirstGoes(stages: seq<Stage>, ranges: seq<real>)
    requires |ranges| == 2 && Positive(ranges) && stages == [FirstFiner(ranges)]
    ensures Sized(stages, 2) && Intended(stages, ranges, 1) == 1
    ensures forall c :: 0 <= c < 2 ==> ChosenList(stages, c, ranges[c], UNEVEN[c]) != []
    ensures Refined(stages, ranges, UNEVEN, 1) == [[8], [8]]
  {
    assert Passes(stages[0], 0, ranges[0]) && !Passes(stages[0], 1, ranges[1]);
    var k0, k1 := Latest(stages, 0, ranges[0]), Latest(stages, 1, ranges[1]);
    assert k0 == 1 && k1 == 0;
    assert Refined(stages, ranges, UNEVEN, 1) == [[8], [8]];
  }

  // ----- Runs that come to such tables -----

  /** The table of a fresh task. */
  function FirstTable(all: seq<S.Zoom>, lists: Grid, levels: nat): Geometry {
    Geometry(lists, levels, EndedOf(all), BoxesOf(all))
  }

  /** The run has come to shrink the first table, after all its levels; the shrink of the ranges as they then stand makes this
      table of it, and as many coefficients at once are intended as before. */
  ghost predicate ComesTo(all: seq<S.Zoom>, least: real, lists: Grid, levels: nat, stages: seq<Stage>, intended: nat, t: System,
                          next: Geometry) {
    var g, centre := FirstTable(all, lists, levels), t.hub.search.centre;
    && AtShrink(g, centre, 2, t) && |centre| == |all| == |lists|
    && ShrinksInto(Around(all, centre), g, stages, intended, least, next)
    && Intended(stages, RangesOf(S.Shrunk(Around(all, centre), least)), intended) == intended
  }

  /** Where the run has come to shrink, and what the shrink makes of the ranges. */
  lemma FirstShrink(all: seq<S.Zoom>, lists: Grid, levels: nat, limit: nat, least: real)
    returns (before: seq<Event>, t: System, ranges: seq<real>)
    requires Whole(all, lists) && S.IsLeast(all, |all|, least) && Makeable(limit, FirstTable(all, lists, levels))
    ensures RunsFrom(Flat(limit), FirstTable(all, lists, levels), before, t) && t.hub.size == limit
    ensures AtShrink(FirstTable(all, lists, levels), t.hub.search.centre, 2, t) && |t.hub.search.centre| == |all|
    ensures InPlace(Around(all, t.hub.search.centre), FirstTable(all, lists, levels), t.hub.search.centre)
    ensures
      var now := Around(all, t.hub.search.centre);
      && S.InStep(now, 0.0) && S.Some(now) && (forall c :: 0 <= c < |now| ==> S.ZoomOk(now[c])) && S.IsLeast(now, |now|, least)
      && ranges == RangesOf(S.Shrunk(now, least)) && Positive(ranges)
  {
    hide Makeable, S.IsLeast, S.InStep, Protocol.Runs, Protocol.Fresh, Bootstrapping, AtShrink, GeoOk, S.ZoomOk,
         ConfigOk, CentreOk;
    var g := FirstTable(all, lists, levels);
    MakeableIs(limit, g);
    assert !g.ended[0];
    var a, s1 := JoinRuns(limit, g);
    var centre := SomeCentre(limit, g);
    CentreGeo(g, centre);
    var b;
    b, t := ToShrink(limit, s1, g, 1, centre);
    before := a + b;
    RunsOn(Flat(limit), Protocol.Fresh(Flat(limit), g), a, s1, b, t);
    ShrinkCentre(g, centre, t);
    LeastAround(all, centre, least);
    WholeAround(all, lists, centre);
    ranges := RangesOf(S.Shrunk(Around(all, centre), least));
    StillPositive(Around(all, centre), lists, least);
  }

  lemma ShrinkCentre(g: Geometry, centre: seq<nat>, t: System)
    requires AtShrink(g, centre, 2, t)
    ensures t.hub.search.centre == centre
  {
  }

  lemma WholeAround(all: seq<S.Zoom>, lists: Grid, centre: seq<nat>)
    requires Whole(all, lists) && |centre| == |all| && forall c :: 0 <= c < |all| ==> centre[c] < lists[c][0]
    ensures Whole(Around(all, centre), lists) && BoxesOf(Around(all, centre)) == BoxesOf(all)
    ensures EndedOf(Around(all, centre)) == EndedOf(all)
    ensures S.InStep(Around(all, centre), 0.0) && S.Some(Around(all, centre))
  {
    WholeInStep(Around(all, centre), lists);
  }

  lemma StillPositive(all: seq<S.Zoom>, lists: Grid, least: real)
    requires Whole(all, lists) && (forall c :: 0 <= c < |all| ==> S.ZoomOk(all[c])) && S.IsLeast(all, |all|, least)
    ensures Positive(RangesOf(S.Shrunk(all, least)))
  {
    hide S.IsLeast, S.Prepare, S.Execute, S.Centre, S.GridStep;
    WholeInStep(all, lists);
    S.ShrinkInStep(all, 0.0, least);
  }

  /** The table that the shrink makes, and the run on to it. */
  lemma SecondTable(all: seq<S.Zoom>, least: real, g: Geometry, stages: seq<Stage>, intended: nat, limit: nat, t: System,
                    next: Geometry)
    returns (after: seq<Event>, s: System)
    requires AtShrink(g, t.hub.search.centre, 2, t) && t.hub.size == limit && InPlace(all, g, t.hub.search.centre)
    requires S.InStep(all, 0.0) && S.Some(all) && least < 1.0 && ShrinksInto(all, g, stages, intended, least, next)
    requires Makeable(limit, next)
    ensures ConfigOk(Flat(limit)) && Protocol.Runs(Flat(limit), t, after, s) && s.hub.search.geo == next
    ensures s.links.Keys == {0} && s.links[0].peer.key == s.hub.key && s.links[0].peer.host.size == limit
    ensures s.links[0].peer.view == ViewOf(s.links[0].peer.host, s.hub.key, Epoch(FrameOf(next), Zeros(|next.grid|), true))
  {
    hide Makeable, S.InStep, Protocol.Runs, GeoOk, ConfigOk, CentreOk, InPlace, ShrinksInto, Narrower, AllEnded, ViewOf,
         FreshSearch, Flat;
    MakeableIs(limit, next);
    IntoNarrower(all, 0.0, g, t.hub.search.centre, stages, intended, least, next);
    after, s := FromShrink(limit, t, g, t.hub.search.centre, 2, next);
  }

  lemma TwoTable(all: seq<S.Zoom>, limit: nat)
    requires Whole(all, TWO) && GridOk(THREE, 3) && End(THREE, 3) <= limit
    ensures Makeable(limit, FirstTable(all, TWO, 2))
  {
    hide End, Built;
    assert Longer(TWO, THREE);
    EndMono(THREE, 2, 3);
    SameEnd(TWO, THREE, 2, 2);
    BuiltReaches(TWO, limit, 2, 2, 0);
    BuiltStart(TWO, limit, 2);
    assert Made(FirstTable(all, TWO, 2), limit, 2);
  }

  ghost function NextGeometry(all: seq<S.Zoom>, least: real, grid: Grid, levels: nat): Geometry
    requires forall c :: 0 <= c < |all| ==> S.ZoomOk(all[c])
  {
    Geometry(grid, levels, EndedOf(S.Shrunk(all, least)), BoxesOf(S.Shrunk(all, least)))
  }

  lemma WholeSize(all: seq<S.Zoom>, lists: Grid)
    requires Whole(all, lists)
    ensures |all| == |lists|
  {
  }

  /** The list that the zoom levels give over these ranges, with the same number at once as before. */
  ghost predicate Gives(stages: seq<Stage>, ranges: seq<real>, lists: Grid, intended: nat, grid: Grid) {
    && |ranges| == |lists| && Sized(stages, |ranges|) && Intended(stages, ranges, intended) == intended
    && (forall c :: 0 <= c < |lists| ==> ChosenList(stages, c, ranges[c], lists[c]) != [])
    && Refined(stages, ranges, lists, intended) == grid
  }

  lemma BigEnough() returns (limit: nat)
    ensures GridOk(THREE, 3) && limit == End(THREE, 3)
  {
    hide End;
    assert GridOk(THREE, 3);
    limit := End(THREE, 3);
  }

  lemma OneStage(ranges: seq<real>, limit: nat) returns (stages: seq<Stage>)
    requires |ranges| == 3 && Positive(ranges) && GridOk(THREE, 3) && End(THREE, 3) <= limit
    ensures Accepted(TWO, stages, limit) && Gives(stages, ranges, TWO, 2, MIXED)
  {
    hide End, Refined, ChosenList, Intended, Latest, LatestOfAll, AllPass, Passes, StageOk;
    stages := [ThreeAtOnce([true, false, false], ranges)];
    StageFacts([true, false, false], ranges, limit);
    BaseAccepted(limit);
    OneGoes(stages, ranges);
  }

  lemma TwoStages(ranges: seq<real>, limit: nat) returns (stages: seq<Stage>)
    requires |ranges| == 3 && Positive(ranges) && GridOk(THREE, 3) && End(THREE, 3) <= limit
    ensures Accepted(TWO, stages, limit) && Gives(stages, ranges, TWO, 2, THREE)
  {
    hide End, Refined, ChosenList, Intended, Latest, LatestOfAll, AllPass, Passes, StageOk;
    stages := [ThreeAtOnce([true, false, false], ranges), ThreeAtOnce([false, true, true], ranges)];
    StageFacts([true, false, false], ranges, limit);
    StageFacts([false, true, true], ranges, limit);
    BaseAccepted(limit);
    AllGo(stages, ranges);
  }

  lemma TwoMakeable(next: Geometry, limit: nat)
    requires next.grid == MIXED || next.grid == THREE
    requires next.levels == 2 && |next.ended| == |next.box| == 3 && Built(next.grid, limit, 2, 0) == (2, false)
    ensures Makeable(limit, next)
  {
    hide Built;
    assert Made(next, limit, 2);
  }

  lemma GivesInto(all: seq<S.Zoom>, g: Geometry, stages: seq<Stage>, ranges: seq<real>, intended: nat, least: real,
                  next: Geometry)
    requires (forall c :: 0 <= c < |all| ==> S.ZoomOk(all[c])) && S.IsLeast(all, |all|, least) && |g.grid| == |all|
    requires ranges == RangesOf(S.Shrunk(all, least)) && Gives(stages, ranges, g.grid, intended, next.grid)
    requires next.ended == EndedOf(S.Shrunk(all, least)) && next.box == BoxesOf(S.Shrunk(all, least))
    ensures ShrinksInto(all, g, stages, intended, least, next)
  {
    hide S.IsLeast, S.Shrunk, S.ZoomOk, Refined, ChosenList, Intended;
  }

  /** The run goes on to that table. */
  lemma OnTo(all: seq<S.Zoom>, least: real, limit: nat, t: System, ranges: seq<real>, stages: seq<Stage>, grid: Grid)
    returns (after: seq<Event>, s: System)
    requires |all| == 3 && least < 1.0 && (grid == MIXED || grid == THREE) && Built(grid, limit, 2, 0) == (2, false)
    requires AtShrink(FirstTable(all, TWO, 2), t.hub.search.centre, 2, t) && |t.hub.search.centre| == |all|
    requires t.hub.size == limit
    requires InPlace(Around(all, t.hub.search.centre), FirstTable(all, TWO, 2), t.hub.search.centre)
    requires
      var now := Around(all, t.hub.search.centre);
      && S.InStep(now, 0.0) && S.Some(now) && (forall c :: 0 <= c < |now| ==> S.ZoomOk(now[c])) && S.IsLeast(now, |now|, least)
      && ranges == RangesOf(S.Shrunk(now, least)) && Gives(stages, ranges, TWO, 2, grid)
    ensures ComesTo(all, least, TWO, 2, stages, 2, t, s.hub.search.geo)
    ensures ConfigOk(Flat(limit)) && Protocol.Runs(Flat(limit), t, after, s)
    ensures s.hub.search.geo.grid == grid && s.hub.search.geo.levels == 2
    ensures |s.hub.search.geo.ended| == |s.hub.search.geo.box| == 3
    ensures s.links.Keys == {0} && s.links[0].peer.key == s.hub.key && s.links[0].peer.host.size == limit
    ensures
      var next := s.hub.search.geo;
      s.links[0].peer.view == ViewOf(s.links[0].peer.host, s.hub.key, Epoch(FrameOf(next), Zeros(|next.grid|), true))
  {
    hide Built, Refined, ChosenList, Intended, S.IsLeast, S.Shrunk, S.InStep, S.ZoomOk, AtShrink, Makeable,
         Protocol.Runs, ViewOf, InPlace;
    var now := Around(all, t.hub.search.centre);
    var next := NextGeometry(now, least, grid, 2);
    TwoMakeable(next, limit);
    GivesInto(now, FirstTable(all, TWO, 2), stages, ranges, 2, least, next);
    hide Gives, ShrinksInto;
    after, s := SecondTable(now, least, FirstTable(all, TWO, 2), stages, 2, limit, t, next);
  }

  lemma ViewFrameIs(host: Host, key: nat, g: Geometry)
    ensures ViewOf(host, key, Epoch(FrameOf(g), Zeros(|g.grid|), true)).frame == FrameOf(g)
  {
  }

  lemma ViewLevels(host: Host, key: nat, g: Geometry, levels: nat)
    requires Buildable(FrameOf(g)) && Built(g.grid, host.size, |g.grid[0]|, 0) == (levels, false)
    ensures
      var v := ViewOf(host, key, Epoch(FrameOf(g), Zeros(|g.grid|), true));
      v.levels == levels && v.seen == g.grid
  {
  }

  /** One coefficient goes over to three at once before the others: its list is longer than theirs, two at once are still
      intended, and the peer, which goes by the first list, reads past the second. So it is for any three ranges, wherever the
      run has put the centre: some zoom levels that the controller accepts do it at the first shrink. */
  lemma ShortListRead(all: seq<S.Zoom>, least: real)
    returns (stages: seq<Stage>, limit: nat, before: seq<Event>, t: System, after: seq<Event>, s: System)
    requires Whole(all, TWO) && S.IsLeast(all, 3, least) && least < 1.0
    ensures Accepted(TWO, stages, limit) && RunsFrom(Flat(limit), FirstTable(all, TWO, 2), before, t)
    ensures ComesTo(all, least, TWO, 2, stages, 2, t, s.hub.search.geo)
    ensures ConfigOk(Flat(limit)) && Protocol.Runs(Flat(limit), t, after, s)
    ensures s.hub.search.geo.grid == MIXED && s.hub.search.geo.levels == 2 && Built(MIXED, limit, 3, 0) == (2, true)
    ensures s.links.Keys == {0} && s.links[0].peer.key == s.hub.key && s.links[0].peer.view.frame.grid == MIXED
  {
    hide End, Built, Intended, S.IsLeast, S.Shrunk, S.ZoomOk, AtShrink, RunsFrom, Protocol.Runs, Whole, ViewOf, Gives,
         Accepted, ComesTo;
    WholeSize(all, TWO);
    limit := BigEnough();
    TwoTable(all, limit);
    var ranges;
    before, t, ranges := FirstShrink(all, TWO, 2, limit, least);
    stages := OneStage(ranges, limit);
    MixedBuilds(limit);
    after, s := OnTo(all, least, limit, t, ranges, stages, MIXED);
    ViewFrameIs(s.links[0].peer.host, s.hub.key, s.hub.search.geo);
  }

  /** Two zoom levels, each passed by other coefficients: all lists are for three at once, two at once are intended, and the
      peer's table has one level more than the server's. */
  lemma LevelMore(all: seq<S.Zoom>, least: real)
    returns (stages: seq<Stage>, limit: nat, before: seq<Event>, t: System, after: seq<Event>, s: System)
    requires Whole(all, TWO) && S.IsLeast(all, 3, least) && least < 1.0
    ensures Accepted(TWO, stages, limit) && RunsFrom(Flat(limit), FirstTable(all, TWO, 2), before, t)
    ensures ComesTo(all, least, TWO, 2, stages, 2, t, s.hub.search.geo)
    ensures ConfigOk(Flat(limit)) && Protocol.Runs(Flat(limit), t, after, s) && s.hub.search.geo.levels == 2
    ensures s.links.Keys == {0} && s.links[0].peer.key == s.hub.key
    ensures s.links[0].peer.view.seen == s.hub.search.geo.grid && s.links[0].peer.view.levels == 3
  {
    hide End, Built, Intended, S.IsLeast, S.Shrunk, S.ZoomOk, AtShrink, RunsFrom, Protocol.Runs, Whole, ViewOf, Gives,
         Accepted, ComesTo;
    WholeSize(all, TWO);
    limit := BigEnough();
    TwoTable(all, limit);
    var ranges;
    before, t, ranges := FirstShrink(all, TWO, 2, limit, least);
    stages := TwoStages(ranges, limit);
    ThreeBuilds(limit);
    after, s := OnTo(all, least, limit, t, ranges, stages, THREE);
    ViewLevels(s.links[0].peer.host, s.hub.key, s.hub.search.geo, 3);
  }

  lemma UnevenTable(all: seq<S.Zoom>, limit: nat)
    requires Whole(all, UNEVEN) && limit == 10
    ensures Makeable(limit, FirstTable(all, UNEVEN, 1)) && GridOk(UNEVEN, 1) && End(UNEVEN, 1) == 10
  {
    hide End, Built;
    FirstOfTwo(2, 8);
    BuiltReaches(UNEVEN, limit, 1, 1, 0);
    BuiltStart(UNEVEN, limit, 1);
    assert Made(FirstTable(all, UNEVEN, 1), limit, 1);
  }

  /** A fine first coefficient from one zoom level beside a fine second one from before: not even the first level fits, though
      each of both lists alone does. */
  lemma FirstLevelTooBig(all: seq<S.Zoom>, least: real)
    returns (stages: seq<Stage>, limit: nat, before: seq<Event>, t: System, next: Geometry)
    requires Whole(all, UNEVEN) && S.IsLeast(all, 2, least) && least < 1.0
    ensures Accepted(UNEVEN, stages, limit) && RunsFrom(Flat(limit), FirstTable(all, UNEVEN, 1), before, t)
    ensures ComesTo(all, least, UNEVEN, 1, stages, 1, t, next)
    ensures GridOk(next.grid, 1) && limit < End(next.grid, 1)
  {
    hide End, Refined, ChosenList, Intended, Latest, LatestOfAll, S.IsLeast, S.Shrunk, S.InStep, S.ZoomOk, AtShrink,
         Makeable, RunsFrom, Protocol.Runs, Whole;
    WholeSize(all, UNEVEN);
    limit := 10;
    UnevenTable(all, limit);
    var ranges;
    before, t, ranges := FirstShrink(all, UNEVEN, 1, limit, least);
    stages := [FirstFiner(ranges)];
    FirstOfTwo(8, 2);
    FirstOfTwo(8, 8);
    assert StageGrid(FirstFiner(ranges)) == [[8], [2]];
    FirstGoes(stages, ranges);
    next := NextGeometry(Around(all, t.hub.search.centre), least, [[8], [8]], 0);
  }
}
