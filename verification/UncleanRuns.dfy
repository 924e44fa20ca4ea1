/** Where a scan that is skipped is not safe to skip, some run does hand out a place twice: the condition under which no work is
    done twice is exact for runs, over the table a run starts with and over all it comes to. */
module UncleanRuns {
  import opened Combos
  import opened Coefficients
  import opened Positions
  import opened Sites
  import opened Tables
  import opened Zooming
  import opened Duplicates
  import opened SkippedScan
  import opened Search
  import opened Protocol
  import opened Safety
  import opened Runs
  import opened FlatRuns

  // ----- Lists that name a place twice -----

  /** Units have been handed out, and no sync is under way. */
  ghost predicate BetweenSyncs(h: Hub) { h.phase.Idle? && !h.search.boot }

  /** The list names no place twice and none that has been visited. */
  ghost predicate CleanList(s: State) {
    CentreOk(s.geo, s.centre) && Inside(s.geo, s.remaining) && Clean(s)
  }

  lemma UncleanAt(g: Geometry, centre: seq<nat>, l: nat, c: nat, d: nat)
    requires CentreOk(g, centre) && l < g.levels && c in Entering(g, centre, l) && d in Entering(g, centre, l) && c != d
    requires c < Total(g) && d < Total(g) && Site(g, centre, c) == Site(g, centre, d)
    ensures !CleanList(SearchAt(g, centre, l))
  {
    hide CentreOk, Entering, Total, Site, SkippedScan.Seen;
  }

  lemma UnsafeLevel(g: Geometry) returns (l: nat)
    requires GeoOk(g) && !SkipsSafely(g)
    ensures 1 <= l < g.levels && !ScanNeeded(g, l) && !SkipIsSafe(g, l)
  {
    l :| 1 <= l < g.levels && !ScanNeeded(g, l) && !SkipIsSafe(g, l);
  }

  /** From a table over which some skipped scan is not safe a run goes on to a list that names a place twice. */
  lemma UncleanFrom(size: nat, s: System, g: Geometry, key: nat) returns (events: seq<Event>, t: System)
    requires key != 0 && GeoOk(g) && 1 <= g.levels && Makeable(s.hub.size, g) && Bootstrapping(g, key, s) && !SkipsSafely(g)
    ensures ConfigOk(Flat(size)) && Protocol.Runs(Flat(size), s, events, t) && BetweenSyncs(t.hub) && t.hub.search.geo == g
    ensures !CleanList(t.hub.search)
  {
    hide Makeable, GeoOk, SkippedScan.Entered, Site, Total, SkippedScan.Seen, LevelWork, CleanList, ScanNeeded,
         SkipIsSafe, CentreOk, CodeOf, SkipsSafely, Bootstrapping, Protocol.Runs, ConfigOk;
    var l := UnsafeLevel(g);
    NoneEnded(g, l);
    var centre, visited, c, d := SkipFails(g, l);
    EnteredCentre(g, centre, visited, l);
    CentreGeo(g, centre);
    assert !g.ended[0];
    events, t := ToLevel(size, s, g, centre, l, key);
    UncleanAt(g, centre, l, c, d);
  }

  /** Where some skipped scan is not safe, a run of a fresh task over this table hands out a place twice. */
  lemma SomeRunUnclean(size: nat, g: Geometry) returns (events: seq<Event>, s: System)
    requires Makeable(size, g) && GeoOk(g) && !SkipsSafely(g)
    ensures RunsFrom(Flat(size), g, events, s) && BetweenSyncs(s.hub) && s.hub.search.geo == g
    ensures !CleanList(s.hub.search)
  {
    hide Makeable, GeoOk, CleanList, SkipsSafely, Bootstrapping, Protocol.Runs, Protocol.Fresh, ConfigOk, ScanNeeded,
         SkipIsSafe;
    MakeableIs(size, g);
    var a, s1 := JoinRuns(size, g);
    var b;
    b, s := UncleanFrom(size, s1, g, 1);
    events := a + b;
    RunsOn(Flat(size), Protocol.Fresh(Flat(size), g), a, s1, b, s);
    UnsafeStarts(size, g);
  }

  lemma UnsafeStarts(size: nat, g: Geometry)
    requires Makeable(size, g) && GeoOk(g) && !SkipsSafely(g)
    ensures Startable(Flat(size), g)
  {
    hide Makeable, SkipIsSafe, ScanNeeded, SkipsSafely;
    var l := UnsafeLevel(g);
    NoneEnded(g, l);
    assert !g.ended[0];
  }

  /** And so does a run that comes to it from another table by a shrink. */
  lemma LaterRunUnclean(size: nat, g: Geometry, next: Geometry) returns (events: seq<Event>, s: System)
    requires Startable(Flat(size), g) && Makeable(size, next) && GeoOk(next) && Narrower(g, next) && !SkipsSafely(next)
    ensures RunsFrom(Flat(size), g, events, s) && BetweenSyncs(s.hub) && s.hub.search.geo == next
    ensures !CleanList(s.hub.search)
  {
    hide Makeable, GeoOk, CleanList, SkipsSafely, Bootstrapping, Protocol.Runs, Protocol.Fresh, ConfigOk, Narrower, AllEnded;
    MakeableIs(size, g);
    MakeableIs(size, next);
    UnsafeStarts(size, next);
    var a, s1 := JoinRuns(size, g);
    var b, s2 := NextTable(size, s1, g, 1, next);
    var c;
    c, s := UncleanFrom(size, s2, next, 3);
    events := a + (b + c);
    RunsOn(Flat(size), s1, b, s2, c, s);
    RunsOn(Flat(size), Protocol.Fresh(Flat(size), g), a, s1, b + c, s);
  }

  lemma EnteredCentre(g: Geometry, centre: seq<nat>, visited: set<nat>, l: nat)
    requires GeoOk(g) && l < g.levels && SkippedScan.Entered(g, centre, visited, l)
    ensures CentreOk(g, centre)
  {
  }

  /** No run over this table, before its first shrink, hands out a place twice. */
  ghost predicate NeverUnclean(size: nat, g: Geometry) {
    forall cfg: Config, events: seq<Event>, s: System ::
      cfg.size == size && RunsFrom(cfg, g, events, s) && BetweenSyncs(s.hub) && s.hub.search.geo == g
      ==> CleanList(s.hub.search)
  }

  /** The condition is exact for runs: no work is done twice, whatever the peers and the objective do, exactly if each scan that
      is skipped is safe to skip. */
  lemma NoWorkTwiceIff(size: nat, g: Geometry)
    requires Makeable(size, g) && GeoOk(g)
    ensures NeverUnclean(size, g) <==> SkipsSafely(g)
  {
    hide Makeable, GeoOk, RunsFrom, CleanList, SkipsSafely, CentreOk, Clean, Flat;
    if SkipsSafely(g) {
      forall cfg: Config, events: seq<Event>, s: System |
        cfg.size == size && RunsFrom(cfg, g, events, s) && BetweenSyncs(s.hub) && s.hub.search.geo == g
        ensures CleanList(s.hub.search)
      {
        NoWorkTwice(cfg, g, events, s);
        IsClean(s.hub.search);
      }
    } else {
      FlatSize(size);
      var events, s := SomeRunUnclean(size, g);
    }
  }

  // ----- All the tables a run comes to -----

  /** Some run of a fresh task comes to this table. */
  ghost predicate Reaches(size: nat, g: Geometry, t: Geometry) {
    exists cfg: Config, events: seq<Event>, s: System ::
      cfg.size == size && RunsFrom(cfg, g, events, s) && !s.hub.phase.Converged? && s.hub.search.geo == t
  }

  /** No run hands out a place twice, before its first shrink or after any other. */
  ghost predicate NeverUncleanAnywhere(size: nat, g: Geometry) {
    forall cfg: Config, events: seq<Event>, s: System ::
      cfg.size == size && RunsFrom(cfg, g, events, s) && BetweenSyncs(s.hub) ==> CleanList(s.hub.search)
  }

  lemma NarrowerThrough(a: Geometry, b: Geometry, c: Geometry)
    requires Narrower(a, b) && Narrower(b, c)
    ensures Narrower(a, c)
  {
  }

  /** The table changes by a shrink alone. */
  lemma StepNarrows(cfg: Config, s: System, e: Event)
    requires ConfigOk(cfg) && Enabled(cfg, s, e) && !s.hub.phase.Converged? && GeoOk(s.hub.search.geo)
    ensures Narrower(s.hub.search.geo, Step(cfg, s, e).hub.search.geo) && Step(cfg, s, e).hub.size == s.hub.size
  {
    hide GeoOk, CanProcess, CanBootstrap, Apply, Process, Bootstrap, Sent, Written, Send, Ok, LostNow, OverlookedNow,
         Newcomer, Stands, Makeable, IsNext, Due, Protocol.Resting, StartSync, FinishSync, ReadReport, CanBoot,
         AfterBoot, Dealt, Advanced;
    match e
    case Report(i, deal) => ReportSame(cfg, s, i, ReportEmpties(s.links[i]), deal);
    case Start => StartSame(s, SyncEmpties(s));
    case Finish(next, deal, assist) =>
      MakeableIs(s.hub.size, next);
      FinishNarrows(cfg, s, next, deal, assist);
    case _ =>
  }

  lemma ReportSame(cfg: Config, s: System, i: nat, idle: bool, deal: map<nat, set<nat>>)
    requires i in s.links && s.links[i].outbox != [] && forall j :: j in s.links ==> j in deal
    ensures
      var t := ReadReport(cfg, s, i, idle, deal);
      t.hub.search.geo == s.hub.search.geo && t.hub.size == s.hub.size
  {
    hide Ok, InRange, Send, SendAll, FirstWork, BootCentre, CodeOf;
  }

  lemma StartSame(s: System, idle: bool)
    requires Ok(s.hub.search)
    ensures StartSync(s, idle).hub.search.geo == s.hub.search.geo && StartSync(s, idle).hub.size == s.hub.size
  {
    hide Ok, Absorb, Recentred;
  }

  lemma FinishNarrows(cfg: Config, s: System, next: Geometry, deal: map<nat, set<nat>>, assist: set<nat>)
    requires Ok(s.hub.search) && GeoOk(next) && 1 <= next.levels && Narrower(s.hub.search.geo, next)
    requires forall i :: i in s.links ==> i in deal
    ensures
      var t := FinishSync(cfg, s, next, deal, assist);
      (t.hub.search.geo == s.hub.search.geo || t.hub.search.geo == next) && t.hub.size == s.hub.size
  {
    hide Ok, GeoOk, Send, SendAll, AllEnded, Upto, Advance, Narrower;
    AdvanceSame(s.hub.search);
  }

  lemma {:induction false} AdvanceSame(s: State)
    requires Ok(s)
    ensures Advance(s).geo == s.geo
    decreases s.geo.levels - s.level
  {
    hide FineGrid, InRange, Total, Site, LevelWork;
    AdvanceInto(s);
    if s.remaining == {} && s.level + 1 < s.geo.levels {
      AdvanceSame(NextLevel(s));
    }
  }

  lemma AdvanceInto(s: State)
    requires Ok(s)
    ensures s.remaining == {} && s.level + 1 < s.geo.levels ==> Ok(NextLevel(s)) && Advance(s) == Advance(NextLevel(s))
    ensures s.remaining != {} || s.level + 1 == s.geo.levels ==> Advance(s).geo == s.geo
  {
    hide FineGrid, InRange, Total, Site;
  }

  lemma {:induction false} RunNarrows(cfg: Config, s: System, events: seq<Event>, t: System)
    requires ConfigOk(cfg) && SystemInv(cfg, s) && Protocol.Runs(cfg, s, events, t)
    requires !s.hub.phase.Converged? && !t.hub.phase.Converged?
    ensures Narrower(s.hub.search.geo, t.hub.search.geo) && t.hub.size == s.hub.size
    decreases |events|
  {
    hide SystemInv, Enabled, Step, Narrower;
    SystemGeo(cfg, s);
    if events != [] {
      var u := Step(cfg, s, events[0]);
      StepKeepsInv(cfg, s, events[0]);
      StepNarrows(cfg, s, events[0]);
      if u.hub.phase.Converged? {
        StaysDone(cfg, u, events[1..], t);
      } else {
        RunNarrows(cfg, u, events[1..], t);
        NarrowerThrough(s.hub.search.geo, u.hub.search.geo, t.hub.search.geo);
      }
    }
  }

  lemma SystemGeo(cfg: Config, s: System)
    requires SystemInv(cfg, s) && !s.hub.phase.Converged?
    ensures GeoOk(s.hub.search.geo) && 1 <= s.hub.search.geo.levels && Makeable(s.hub.size, s.hub.search.geo)
    ensures Narrower(s.hub.search.geo, s.hub.search.geo)
  {
    hide FineGrid, InRange, Total, Site, Inv, Settled, VisitedOk, LinkInv, Made;
    SomeLevel(s.hub.search.geo);
  }

  lemma {:induction false} StaysDone(cfg: Config, s: System, events: seq<Event>, t: System)
    requires ConfigOk(cfg) && Protocol.Runs(cfg, s, events, t) && s.hub.phase.Converged?
    ensures t.hub.phase.Converged?
    decreases |events|
  {
    hide Enabled, Step;
    if events != [] {
      StaysConverged(cfg, s, events[0]);
      StaysDone(cfg, Step(cfg, s, events[0]), events[1..], t);
    }
  }

  /** What a run comes to: a table the server can build, no wider than the first one. */
  lemma ReachedIs(size: nat, g: Geometry, t: Geometry)
    requires Reaches(size, g, t)
    ensures GeoOk(t) && Makeable(size, t) && Narrower(g, t) && Startable(Flat(size), g)
  {
    hide RunsFrom, Makeable, Narrower, SystemInv, AllEnded;
    var cfg: Config, events: seq<Event>, s: System :|
      cfg.size == size && RunsFrom(cfg, g, events, s) && !s.hub.phase.Converged? && s.hub.search.geo == t;
    RunInv(cfg, g, events, s);
    SystemGeo(cfg, s);
    RunNarrowsFrom(cfg, g, events, s);
    FlatOk(size);
  }

  lemma RunNarrowsFrom(cfg: Config, g: Geometry, events: seq<Event>, s: System)
    requires RunsFrom(cfg, g, events, s) && !s.hub.phase.Converged?
    ensures Startable(cfg, g) && Narrower(g, s.hub.search.geo) && s.hub.size == cfg.size
  {
    hide Makeable, AllEnded, Protocol.Runs, SystemInv, Narrower, GeoOk, Upto;
    FreshInv(cfg, g);
    RunNarrows(cfg, Protocol.Fresh(cfg, g), events, s);
  }

  /** The condition is exact for whole runs as well, across every shrink: no work is ever done twice, whatever the peers and the
      objective do, exactly if over every table a run comes to each scan that is skipped is safe to skip. */
  lemma NoWorkTwiceAnywhereIff(size: nat, g: Geometry)
    ensures NeverUncleanAnywhere(size, g) <==> forall t :: Reaches(size, g, t) ==> GeoOk(t) && SkipsSafely(t)
  {
    hide RunsFrom, Makeable, Narrower, CleanList, SkipsSafely, CentreOk, Clean, Flat, GeoOk, Startable;
    if NeverUncleanAnywhere(size, g) {
      forall t | Reaches(size, g, t) ensures GeoOk(t) && SkipsSafely(t) {
        ReachedIs(size, g, t);
        if !SkipsSafely(t) {
          FlatSize(size);
          var events, s := LaterRunUnclean(size, g, t);
          assert false;
        }
      }
    }
    if forall t :: Reaches(size, g, t) ==> GeoOk(t) && SkipsSafely(t) {
      forall cfg: Config, events: seq<Event>, s: System | cfg.size == size && RunsFrom(cfg, g, events, s) && BetweenSyncs(s.hub)
        ensures CleanList(s.hub.search)
      {
        assert Reaches(size, g, s.hub.search.geo);
        NoWorkTwice(cfg, g, events, s);
        IsClean(s.hub.search);
      }
    }
  }

  lemma FlatSize(size: nat)
    ensures Flat(size).size == size
  {
  }

  lemma IsClean(s: State)
    requires CentreOk(s.geo, s.centre) && Inside(s.geo, s.remaining) && Clean(s)
    ensures CleanList(s)
  {
  }

  /** So the server may hand out work twice: over a table it builds for four coefficients with resolutions 4, 2 and 4. */
  lemma UncleanGrid() returns (size: nat, g: Geometry, events: seq<Event>, s: System)
    ensures GeoOk(g) && Makeable(size, g) && g.levels == 3 && |g.grid| == 4
    ensures forall j :: 0 <= j < 4 ==> g.grid[j] == [4, 2, 4]
    ensures RunsFrom(Flat(size), g, events, s) && BetweenSyncs(s.hub) && !CleanList(s.hub.search)
  {
    hide GeoOk, RunsFrom, CleanList, NeverTwice, End, Built, SkipsSafely, ScanNeeded, SkipIsSafe, Makeable;
    g := UnsafeGrid();
    GridOfFour(g);
    size := End(g.grid, 3);
    BuiltReaches(g.grid, size, 3, 3, 0);
    BuiltStart(g.grid, size, 3);
    MakeableBy(size, g, 3);
    UnsafeNotSafely(g);
    events, s := SomeRunUnclean(size, g);
  }

  lemma GridOfFour(g: Geometry)
    requires |g.grid| == 4 && forall j :: 0 <= j < 4 ==> g.grid[j] == [4, 2, 4]
    ensures GridOk(g.grid, 3) && GridOk(g.grid, 0)
    ensures forall j :: 0 <= j < 4 ==> Fine(g.grid[j]) && |g.grid[j]| == 3
  {
  }

  lemma MakeableBy(size: nat, g: Geometry, intended: nat)
    requires GeoOk(g) && 1 <= g.levels && Made(g, size, intended)
    ensures Makeable(size, g)
  {
  }

  lemma UnsafeNotSafely(g: Geometry)
    requires GeoOk(g) && g.levels == 3 && !NeverTwice(g, 2) && !ScanNeeded(g, 2)
    ensures !SkipsSafely(g)
  {
    SkipRightIff(g, 2);
  }
}
