/** Runs in which one peer does all the work and the objective is constant: from a fresh table, or one after a shrink, through
    all levels around any centre, and on to any further table. */
module FlatRuns {
  import opened Combos
  import opened Coefficients
  import opened Positions
  import opened Ranges
  import opened Sites
  import opened Views
  import opened Zooming
  import opened Duplicates
  import opened SkippedScan
  import opened Search
  import opened Protocol
  import opened Runs

  // ----- What has been visited on entering a level -----

  /** The list of a level that is entered with exactly what the lower levels reach visited. */
  ghost function Entering(g: Geometry, centre: seq<nat>, l: nat): set<nat>
    requires CentreOk(g, centre) && l < g.levels
  {
    LevelWork(g, centre, SkippedScan.Seen(g, centre, l), l)
  }

  lemma SeenMore(g: Geometry, centre: seq<nat>, m: nat)
    requires CentreOk(g, centre) && m < g.levels
    ensures SkippedScan.Seen(g, centre, m) <= SkippedScan.Seen(g, centre, m + 1)
    ensures CodeOf(g, centre) in SkippedScan.Seen(g, centre, m)
  {
    hide CodeOf, FineGrid, InRange, Site, Upto;
    UptoMono(g, m, m + 1);
  }

  lemma EnteringRange(g: Geometry, centre: seq<nat>, m: nat)
    requires CentreOk(g, centre) && m < g.levels
    ensures forall c :: c in Entering(g, centre, m) ==> Upto(g, m) <= c < Upto(g, m + 1) <= Total(g)
  {
    hide FineGrid, InRange, Site, Upto, ScanNeeded, SkippedScan.Seen;
  }

  lemma CentreSize(g: Geometry, centre: seq<nat>)
    requires CentreOk(g, centre)
    ensures |centre| == |g.grid|
  {
  }

  /** Once the list is done, exactly what the level reaches has been visited as well. */
  lemma SeenNext(g: Geometry, centre: seq<nat>, m: nat)
    requires CentreOk(g, centre) && m < g.levels
    ensures Inside(g, Entering(g, centre, m))
    ensures SkippedScan.Seen(g, centre, m) + SitesOf(g, centre, Entering(g, centre, m)) == SkippedScan.Seen(g, centre, m + 1)
  {
    hide FineGrid, InRange, Site, Upto, ScanNeeded, LevelWork, Total, CodeOf;
    var seen, next, w := SkippedScan.Seen(g, centre, m), SkippedScan.Seen(g, centre, m + 1), Entering(g, centre, m);
    SeenMore(g, centre, m);
    UptoMono(g, m, m + 1);
    assert |centre| == |g.grid| by { CentreSize(g, centre); }
    EnteringRange(g, centre, m);
    LevelWorkFacts(g, centre, seen, m);
    forall x | x in SitesOf(g, centre, w) ensures x in next {
      var c :| c in w && Site(g, centre, c) == x;
    }
    forall x | x in next ensures x in seen + SitesOf(g, centre, w) {
      if x != CodeOf(g, centre) {
        var e :| 0 <= e < Upto(g, m + 1) && Site(g, centre, e) == x;
        assert Claimed(g, centre, w, seen, x);
      }
    }
  }

  lemma {:induction false} AdvanceTo(s: State, l: nat)
    requires Ok(s) && s.remaining == {} && s.level < l < s.geo.levels && Entering(s.geo, s.centre, l) != {}
    requires s.visited == SkippedScan.Seen(s.geo, s.centre, s.level + 1)
    ensures
      var r := Advance(s);
      && s.level < r.level <= l && r == s.(level := r.level, remaining := Entering(s.geo, s.centre, r.level))
      && r.remaining != {} && r.visited == SkippedScan.Seen(s.geo, s.centre, r.level)
    decreases l - s.level
  {
    hide FineGrid, InRange, Site, Upto, Total, LevelWork, CodeOf, SkippedScan.Seen, SitesOf;
    var n := s.level + 1;
    var t := s.(level := n, remaining := Entering(s.geo, s.centre, n));
    SeenNext(s.geo, s.centre, n);
    assert Ok(t) && Advance(s) == Advance(t);
    if t.remaining == {} {
      NoSites(s.geo, s.centre, Entering(s.geo, s.centre, n));
      AdvanceTo(t, l);
    }
  }

  lemma NoSites(g: Geometry, centre: seq<nat>, work: set<nat>)
    requires CentreOk(g, centre) && Inside(g, work) && work == {}
    ensures SitesOf(g, centre, work) == {}
  {
    SitesNone(g, centre);
  }

  // ----- One peer that does all the work of a level -----

  /** The objective is constant: nothing is ever an improvement. */
  function Flat(size: nat): Config { Config((frame, p) => 0.0, 1.0, 1.0, 5, size) }

  /** A peer around the server's centre, with its key, that has nothing to report. */
  ghost predicate PeerAt(p: Peer, g: Geometry, centre: seq<nat>, key: nat) {
    && p.key == key && Agrees(p.view, g) && p.view.centre == centre && !p.view.boot
    && p.value == 0.0 && p.draft == None && !p.due && !p.gagged
  }

  /** Nothing is under way between the server and its peer, whose last report was of this key or the one before. */
  ghost predicate Quiet(l: Link, key: nat) {
    l.inbox == [] && l.outbox == [] && !l.writing && !l.late && !l.sending && key <= l.echo + 1
  }

  ghost predicate AtWork(l: Link, g: Geometry, centre: seq<nat>, work: set<nat>, key: nat) {
    && PeerAt(l.peer, g, centre, key) && l.peer.work == l.share == work && l.peer.unreported == {} && l.peer.going
    && Quiet(l, key)
  }

  ghost function SearchAt(g: Geometry, centre: seq<nat>, m: nat): State
    requires CentreOk(g, centre) && m < g.levels
  {
    State(g, centre, m, Entering(g, centre, m), {}, SkippedScan.Seen(g, centre, m), false, 0.0, None, false)
  }

  /** The server has entered level `m` and the peer has been handed the whole list. */
  ghost predicate Working(g: Geometry, centre: seq<nat>, m: nat, key: nat, s: System)
    requires CentreOk(g, centre) && m < g.levels
  {
    && s.hub.search == SearchAt(g, centre, m) && s.hub.key == key && s.hub.phase.Idle?
    && s.links.Keys == {0} && s.links[0].peer.host.size == s.hub.size
    && AtWork(s.links[0], g, centre, Entering(g, centre, m), key)
  }

  lemma FlatOk(size: nat)
    ensures ConfigOk(Flat(size)) && Aim(1.0, 0.0) == 0.0 && Aim(1.0, 1.0) == 1.0
  {
  }

  /** Evaluating a unit; the last one of the list is reported with all the others. */
  lemma UnitStep(size: nat, h: Hub, l: Link, g: Geometry, centre: seq<nat>, key: nat, c: nat)
    requires key != 0 && CentreOk(g, centre) && PeerAt(l.peer, g, centre, key) && !l.sending && c in l.peer.work && c < Total(g)
    ensures
      var cfg, p := Flat(size), l.peer;
      && ConfigOk(cfg) && CanProcess(p, c)
      && LostNow(cfg, h, l, c) == {} && OverlookedNow(cfg, h, l, c) == {}
      && Process(cfg, l, c) ==
           if p.work == {c} then
             l.(peer := p.(work := {}, unreported := {}, going := false), sending := true,
                outbox := l.outbox + [Done(p.key, p.view, 0.0, None, p.unreported + {c})])
           else l.(peer := p.(work := p.work - {c}, unreported := p.unreported + {c}))
  {
    hide CentreOk, Total, Aim, Span, Where, ViewOk, PointsOf, Point;
    FlatOk(size);
    AgreesPoint(l.peer.view, g, c);
    AgreesView(l.peer.view, g);
    assert !Improves(Flat(size), l.peer, c);
    assert l.peer.work - {c} == {} <==> l.peer.work == {c};
  }

  lemma AgreesView(v: View, g: Geometry)
    requires Agrees(v, g)
    ensures ViewOk(v)
  {
  }

  /** There is always a unit that is done next. */
  lemma {:induction false} NextUnit(work: set<nat>, k: nat, bound: nat) returns (c: nat)
    requires work != {} && (forall x :: x in work && x < k ==> x + 1 in work) && k <= bound
    requires forall x :: x in work ==> x < bound
    ensures IsNext(work, c)
    decreases bound - k
  {
    if k in work && k + 1 !in work {
      c := k;
    } else if k == bound {
      var x :| x in work;
      StillIn(work, x, bound);
      assert false;
    } else {
      c := NextUnit(work, k + 1, bound);
    }
  }

  lemma {:induction false} StillIn(work: set<nat>, x: nat, bound: nat)
    requires x in work && x <= bound && forall y :: y in work ==> y + 1 in work
    ensures bound in work
    decreases bound - x
  {
    if x < bound { StillIn(work, x + 1, bound); }
  }

  lemma {:induction false} UnitsRun(size: nat, s: System, g: Geometry, centre: seq<nat>, key: nat)
    returns (events: seq<Event>, t: System)
    requires key != 0 && CentreOk(g, centre) && s.links.Keys == {0}
    requires PeerAt(s.links[0].peer, g, centre, key) && !s.links[0].sending
    requires s.links[0].peer.work != {} && Inside(g, s.links[0].peer.work) && s.links[0].peer.going
    ensures ConfigOk(Flat(size)) && Protocol.Runs(Flat(size), s, events, t)
    ensures t.hub == s.hub.(evaluated := t.hub.evaluated) && t.links.Keys == {0}
    ensures
      var l, p := s.links[0], s.links[0].peer;
      t.links[0] == l.(peer := p.(work := {}, unreported := {}, going := false), sending := true,
                       outbox := l.outbox + [Done(p.key, p.view, 0.0, None, p.unreported + p.work)])
    decreases s.links[0].peer.work
  {
    hide CentreOk, Total, Process, LostNow, OverlookedNow, CanProcess, Agrees, ConfigOk, Stands, Flat, IsNext;
    FlatOk(size);
    var l := s.links[0];
    CentreGeo(g, centre);
    var c := NextUnit(l.peer.work, 0, Total(g));
    UnitStep(size, s.hub, l, g, centre, key, c);
    var u := Step(Flat(size), s, Evaluate(0, c));
    assert u.links.Keys == {0} && u.links[0] == Process(Flat(size), l, c);
    if l.peer.work == {c} {
      events, t := [Evaluate(0, c)], u;
      assert events[1..] == [];
    } else {
      assert l.peer.work - {c} != {};
      var rest;
      rest, t := UnitsRun(size, u, g, centre, key);
      events := [Evaluate(0, c)] + rest;
      assert events[1..] == rest;
      assert l.peer.unreported + {c} + (l.peer.work - {c}) == l.peer.unreported + l.peer.work;
    }
  }

  // ----- The end of a level -----

  /** The server holds the report about the whole list, and the peer waits. */
  ghost predicate LevelDone(g: Geometry, centre: seq<nat>, m: nat, key: nat, s: System)
    requires CentreOk(g, centre) && m < g.levels
  {
    && s.hub.search == SearchAt(g, centre, m).(accumulated := Entering(g, centre, m), redistribute := true)
    && s.hub.key == key && s.hub.phase.Idle? && s.links.Keys == {0} && Waiting(s.links[0], g, centre, key)
    && s.links[0].peer.host.size == s.hub.size
  }

  ghost predicate Waiting(l: Link, g: Geometry, centre: seq<nat>, key: nat) {
    && PeerAt(l.peer, g, centre, key) && l.peer.work == l.peer.unreported == l.share == {}
    && l.inbox == [] && l.outbox == [] && !l.writing && !l.late && !l.sending && l.echo == key
  }

  /** The peer has done everything: its write is through, and the server reads the report. */
  lemma Reported(size: nat, s: System, g: Geometry, centre: seq<nat>, m: nat, key: nat) returns (events: seq<Event>, t: System)
    requires CentreOk(g, centre) && m < g.levels && Entering(g, centre, m) != {}
    requires s.hub.search == SearchAt(g, centre, m) && s.hub.key == key && s.hub.phase.Idle? && s.links.Keys == {0}
    requires s.links[0].peer.host.size == s.hub.size
    requires
      var l, w := s.links[0], Entering(g, centre, m);
      && PeerAt(l.peer, g, centre, key) && l.peer.work == l.peer.unreported == {} && l.share == w && l.sending
      && l.inbox == [] && !l.writing && !l.late && l.outbox == [Done(key, l.peer.view, 0.0, None, w)]
    ensures ConfigOk(Flat(size)) && Protocol.Runs(Flat(size), s, events, t)
    ensures LevelDone(g, centre, m, key, t) && t.hub.size == s.hub.size
  {
    hide CentreOk, Entering, Agrees, Flat, ConfigOk, SkippedScan.Seen, PeerAt;
    FlatOk(size);
    var cfg, w := Flat(size), Entering(g, centre, m);
    var deal: map<nat, set<nat>> := map[0 := {}];
    assert s.links[0].peer.draft == None by { DraftNone(s.links[0].peer, g, centre, key); }
    var u := Step(cfg, s, SendDone(0));
    var l := s.links[0].(sending := false);
    assert u.hub == s.hub && u.links.Keys == {0} && u.links[0] == l;
    assert l.outbox[1..] == [];
    t := Step(cfg, u, Event.Report(0, deal));
    assert {} + w == w && w - w == {};
    assert t.links.Keys == {0};
    hide Enabled, Step, Protocol.Runs;
    RunsOne(cfg, u, Event.Report(0, deal), t);
    events := [SendDone(0)] + [Event.Report(0, deal)];
    AlsoRuns(cfg, s, SendDone(0), u, [Event.Report(0, deal)], t);
  }

  lemma DraftNone(p: Peer, g: Geometry, centre: seq<nat>, key: nat)
    requires PeerAt(p, g, centre, key)
    ensures p.draft == None
  {
  }

  /** From a list that has been handed out to the report about all of it. */
  lemma LevelDoes(size: nat, s: System, g: Geometry, centre: seq<nat>, m: nat, key: nat) returns (events: seq<Event>, t: System)
    requires key != 0 && CentreOk(g, centre) && m < g.levels && Working(g, centre, m, key, s) && Entering(g, centre, m) != {}
    ensures ConfigOk(Flat(size)) && Protocol.Runs(Flat(size), s, events, t)
    ensures LevelDone(g, centre, m, key, t) && t.hub.size == s.hub.size
  {
    hide CentreOk, Entering, Agrees, ConfigOk, SearchAt, Flat, Protocol.Runs, LevelDone;
    SearchOkAt(g, centre, m);
    var w := Entering(g, centre, m);
    var a, s1 := UnitsRun(size, s, g, centre, key);
    assert {} + w == w;
    assert [] + [Done(key, s.links[0].peer.view, 0.0, None, w)] == [Done(key, s.links[0].peer.view, 0.0, None, w)];
    var b;
    b, t := Reported(size, s1, g, centre, m, key);
    events := a + b;
    RunsOn(Flat(size), s, a, s1, b, t);
  }

  lemma SearchOkAt(g: Geometry, centre: seq<nat>, m: nat)
    requires CentreOk(g, centre) && m < g.levels
    ensures Ok(SearchAt(g, centre, m)) && Inside(g, Entering(g, centre, m))
    ensures Ok(SearchAt(g, centre, m).(accumulated := Entering(g, centre, m), redistribute := true))
  {
    hide CentreOk, Entering, SkippedScan.Seen, Total;
    SeenNext(g, centre, m);
  }

  /** The search once the reports about a level have been absorbed. */
  ghost function Absorbed(g: Geometry, centre: seq<nat>, m: nat): State
    requires CentreOk(g, centre) && m < g.levels
  {
    State(g, centre, m, {}, {}, SkippedScan.Seen(g, centre, m + 1), false, 0.0, None, true)
  }

  lemma AbsorbedAt(g: Geometry, centre: seq<nat>, m: nat, idle: bool)
    requires CentreOk(g, centre) && m < g.levels && Entering(g, centre, m) != {}
    ensures
      var s := SearchAt(g, centre, m).(accumulated := Entering(g, centre, m), redistribute := true);
      Ok(s) && Ok(Absorbed(g, centre, m)) && Absorb(s, idle) == Absorbed(g, centre, m)
  {
    hide CentreOk, Entering, SkippedScan.Seen, Total, SitesOf;
    SearchOkAt(g, centre, m);
    SeenNext(g, centre, m);
    var w := Entering(g, centre, m);
    var s := SearchAt(g, centre, m).(accumulated := w, redistribute := true);
    assert w - w == {};
    assert Absorb(s, idle) == Absorbed(g, centre, m);
  }

  /** The sync begins: everything reported is absorbed. */
  lemma Begins(size: nat, s: System, g: Geometry, centre: seq<nat>, m: nat, key: nat) returns (t: System)
    requires CentreOk(g, centre) && m < g.levels && Entering(g, centre, m) != {} && LevelDone(g, centre, m, key, s)
    ensures ConfigOk(Flat(size)) && Enabled(Flat(size), s, Event.Start) && Step(Flat(size), s, Event.Start) == t
    ensures Ok(Absorbed(g, centre, m)) && t.hub == s.hub.(search := Absorbed(g, centre, m), phase := Advancing)
    ensures t.links.Keys == {0} && t.links[0] == s.links[0]
  {
    hide CentreOk, Entering, Agrees, ConfigOk, SkippedScan.Seen, PeerAt, Absorb, Ok;
    FlatOk(size);
    AbsorbedAt(g, centre, m, SyncEmpties(s));
    t := Step(Flat(size), s, Event.Start);
    assert t.links.Keys == {0} && t.links[0] == s.links[0];
  }

  // ----- From level to level -----

  /** The sync lays out the next level that has something to do, and hands it out. */
  lemma Advances(size: nat, s: System, g: Geometry, centre: seq<nat>, m: nat, l: nat, key: nat)
    returns (events: seq<Event>, t: System, n: nat)
    requires CentreOk(g, centre) && m < l < g.levels && Entering(g, centre, m) != {} && Entering(g, centre, l) != {}
    requires Makeable(s.hub.size, g) && LevelDone(g, centre, m, key, s)
    ensures ConfigOk(Flat(size)) && Protocol.Runs(Flat(size), s, events, t)
    ensures m < n <= l && t.hub.search == SearchAt(g, centre, n) && Entering(g, centre, n) != {}
    ensures t.hub.key == key && t.hub.phase.Idle? && t.hub.size == s.hub.size && t.links.Keys == {0}
    ensures
      var w := Entering(g, centre, n);
      t.links[0] == s.links[0].(inbox := [Work(w, true)], writing := true, share := w)
  {
    hide CentreOk, Entering, ConfigOk, SkippedScan.Seen, Ok, Makeable, LevelDone, Step, Enabled, Protocol.Runs, Flat,
         Advance;
    FlatOk(size);
    var u := Begins(size, s, g, centre, m, key);
    AdvanceTo(Absorbed(g, centre, m), l);
    n := Advance(Absorbed(g, centre, m)).level;
    LevelDoneParts(g, centre, m, key, s);
    var deal;
    deal, t := HandsOut(size, u, g, centre, n, key);
    RunsOne(Flat(size), u, Finish(g, deal, {}), t);
    events := [Event.Start] + [Finish(g, deal, {})];
    AlsoRuns(Flat(size), s, Event.Start, u, [Finish(g, deal, {})], t);
  }

  lemma LevelDoneParts(g: Geometry, centre: seq<nat>, m: nat, key: nat, s: System)
    requires CentreOk(g, centre) && m < g.levels && LevelDone(g, centre, m, key, s)
    ensures s.hub.key == key && s.hub.phase.Idle? && s.links.Keys == {0} && Waiting(s.links[0], g, centre, key)
    ensures s.links[0].peer.host.size == s.hub.size
  {
  }

  /** The end of the sync, where there is a list. */
  lemma HandsOut(size: nat, s: System, g: Geometry, centre: seq<nat>, n: nat, key: nat)
    returns (deal: map<nat, set<nat>>, t: System)
    requires CentreOk(g, centre) && n < g.levels && Makeable(s.hub.size, g) && Ok(s.hub.search) && s.hub.search.geo == g
    requires s.hub.search.redistribute && Advance(s.hub.search) == SearchAt(g, centre, n).(redistribute := true)
    requires s.hub.key == key && s.hub.phase.Advancing? && s.links.Keys == {0} && Waiting(s.links[0], g, centre, key)
    ensures ConfigOk(Flat(size)) && Enabled(Flat(size), s, Finish(g, deal, {})) && Step(Flat(size), s, Finish(g, deal, {})) == t
    ensures
      var w := Entering(g, centre, n);
      && t.hub == s.hub.(search := SearchAt(g, centre, n), phase := Idle) && t.links.Keys == {0}
      && t.links[0] == s.links[0].(inbox := [Work(w, true)], writing := true, share := w)
  {
    hide CentreOk, Entering, ConfigOk, SkippedScan.Seen, PeerAt, Advance, Ok, GeoOk, Apply, Process, Bootstrap, Sent,
         Written, StartSync, ReadReport, Newcomer, LostNow, OverlookedNow;
    FlatOk(size);
    MakeableIs(s.hub.size, g);
    hide Makeable;
    var w := Entering(g, centre, n);
    deal := map[0 := w];
    t := Step(Flat(size), s, Finish(g, deal, {}));
    assert [] + [Work(w, true)] == [Work(w, true)];
    assert t.links.Keys == {0} && t.links[0] == s.links[0].(inbox := [Work(w, true)], writing := true, share := w);
  }

  lemma MakeableIs(size: nat, g: Geometry)
    requires Makeable(size, g)
    ensures GeoOk(g) && 1 <= g.levels && Narrower(g, g)
  {
  }

  lemma WorkRead(size: nat, s: System, g: Geometry, centre: seq<nat>, work: set<nat>, key: nat) returns (t: System)
    requires s.links.Keys == {0}
    requires
      var l := s.links[0];
      && PeerAt(l.peer, g, centre, key) && l.peer.unreported == {} && !l.sending && l.share == work
      && l.inbox == [Work(work, true)] && l.outbox == [] && l.writing && !l.late && l.echo == key
    ensures ConfigOk(Flat(size)) && Protocol.Runs(Flat(size), s, [ReadMessage(0), WriteDone(0)], t)
    ensures t.hub == s.hub && t.links.Keys == {0} && AtWork(t.links[0], g, centre, work, key)
    ensures t.links[0].peer.host == s.links[0].peer.host
  {
    hide CentreOk, Agrees, ConfigOk, Flat;
    FlatOk(size);
    var cfg, l := Flat(size), s.links[0];
    var u := Step(cfg, s, ReadMessage(0));
    assert [Work(work, true)][1..] == [];
    assert u.links.Keys == {0} && u.links[0] == l.(peer := l.peer.(work := work, going := true), inbox := []);
    t := Step(cfg, u, WriteDone(0));
    assert t.links.Keys == {0};
    hide Enabled, Step, Protocol.Runs;
    RunsOne(cfg, u, WriteDone(0), t);
    AlsoRuns(cfg, s, ReadMessage(0), u, [WriteDone(0)], t);
    assert [ReadMessage(0)] + [WriteDone(0)] == [ReadMessage(0), WriteDone(0)];
  }

  lemma LevelRuns(size: nat, s: System, g: Geometry, centre: seq<nat>, m: nat, l: nat, key: nat)
    returns (events: seq<Event>, t: System, n: nat)
    requires key != 0 && CentreOk(g, centre) && m < l < g.levels && Working(g, centre, m, key, s) && Makeable(s.hub.size, g)
    requires Entering(g, centre, m) != {} && Entering(g, centre, l) != {}
    ensures ConfigOk(Flat(size)) && Protocol.Runs(Flat(size), s, events, t)
    ensures m < n <= l && Working(g, centre, n, key, t) && t.hub.size == s.hub.size && Entering(g, centre, n) != {}
  {
    hide CentreOk, Entering, Agrees, ConfigOk, SearchAt, Makeable, Flat, Protocol.Runs, LevelDone, PeerAt;
    var a, s1 := LevelDoes(size, s, g, centre, m, key);
    LevelDoneParts(g, centre, m, key, s1);
    var b, s2;
    b, s2, n := Advances(size, s1, g, centre, m, l, key);
    t := WorkRead(size, s2, g, centre, Entering(g, centre, n), key);
    var c := [ReadMessage(0), WriteDone(0)];
    RunsOn(Flat(size), s1, b, s2, c, t);
    events := a + (b + c);
    RunsOn(Flat(size), s, a, s1, b + c, t);
  }

  lemma {:induction false} LevelsRun(size: nat, s: System, g: Geometry, centre: seq<nat>, m: nat, l: nat, key: nat)
    returns (events: seq<Event>, t: System)
    requires key != 0 && CentreOk(g, centre) && m <= l < g.levels && Working(g, centre, m, key, s) && Makeable(s.hub.size, g)
    requires Entering(g, centre, m) != {} && Entering(g, centre, l) != {}
    ensures ConfigOk(Flat(size)) && Protocol.Runs(Flat(size), s, events, t)
    ensures Working(g, centre, l, key, t) && t.hub.size == s.hub.size
    decreases l - m
  {
    hide CentreOk, Entering, Working, Makeable, Flat, Protocol.Runs, ConfigOk;
    FlatOk(size);
    if m == l {
      events, t := [], s;
      RunsNone(Flat(size), s);
    } else {
      var a, s1, n := LevelRuns(size, s, g, centre, m, l, key);
      var b;
      b, t := LevelsRun(size, s1, g, centre, n, l, key);
      events := a + b;
      RunsOn(Flat(size), s, a, s1, b, t);
    }
  }

  lemma RunsNone(cfg: Config, s: System)
    requires ConfigOk(cfg)
    ensures Protocol.Runs(cfg, s, [], s)
  {
  }

  // ----- The start -----

  function Plain(size: nat): Host { Host(size, (key: nat, c: nat, i: nat) => 0) }

  ghost function FreshSearch(g: Geometry, redistribute: bool): State
    requires GeoOk(g) && 1 <= g.levels
  {
    State(g, Zeros(|g.grid|), 0, Points(Range(0, Upto(g, 1))), {}, {}, true, 1.0, None, redistribute)
  }

  /** The server bootstraps, and its only peer has read the whole state. */
  ghost predicate Bootstrapping(g: Geometry, key: nat, s: System)
    requires GeoOk(g) && 1 <= g.levels
  {
    && s.hub.search == FreshSearch(g, s.hub.search.redistribute) && s.hub.key == key && s.hub.phase.Idle?
    && s.links.Keys == {0} && NewPeer(s.links[0].peer, g, key) && Quiet(s.links[0], key)
    && s.links[0].peer.host.size == s.hub.size
  }

  ghost predicate NewPeer(p: Peer, g: Geometry, key: nat) {
    && p.key == key && p.view.boot && p.view.frame == FrameOf(g) && p.view.centre == Zeros(|g.grid|)
    && p.value == 1.0 && p.unreported == {} && p.draft == None && p.going && !p.due && !p.gagged
  }

  lemma NewPeerAt(p: Peer, g: Geometry, key: nat)
    requires
      var v := ViewOf(p.host, key, Epoch(FrameOf(g), Zeros(|g.grid|), true));
      p == Peer(key, v, 1.0, {}, {}, None, p.host, false, true, false)
    ensures NewPeer(p, g, key)
  {
    hide Built, Spilled;
  }

  /** A peer joins and reads the whole state. */
  lemma JoinRuns(size: nat, g: Geometry) returns (events: seq<Event>, t: System)
    requires GeoOk(g) && 1 <= g.levels
    ensures ConfigOk(Flat(size)) && Protocol.Runs(Flat(size), Protocol.Fresh(Flat(size), g), events, t)
    ensures Bootstrapping(g, 1, t) && t.hub.size == size
  {
    hide GeoOk, Upto, ViewOf, ConfigOk, NewPeer;
    FlatOk(size);
    var cfg, host, s0 := Flat(size), Plain(size), Protocol.Fresh(Flat(size), g);
    var join := Join(0, View(FrameOf(g), g.grid, 0, [], true), host, false);
    var m := Full(1, s0.hub.msgEpoch, 1.0, {});
    var s1 := Step(cfg, s0, join);
    assert [] + [m] == [m] && [m][1..] == [];
    assert s1.links.Keys == {0} && s1.links[0].inbox == [m];
    var s2 := Step(cfg, s1, ReadMessage(0));
    assert s2.links.Keys == {0};
    t := Step(cfg, s2, WriteDone(0));
    assert t.links.Keys == {0};
    NewPeerAt(t.links[0].peer, g, 1);
    hide Enabled, Step, Protocol.Runs, Protocol.Fresh, Flat;
    RunsOne(cfg, s2, WriteDone(0), t);
    AlsoRuns(cfg, s1, ReadMessage(0), s2, [WriteDone(0)], t);
    events := [join] + ([ReadMessage(0)] + [WriteDone(0)]);
    AlsoRuns(cfg, s0, join, s1, [ReadMessage(0)] + [WriteDone(0)], t);
  }

  /** It computes the objective at a point, and reports it. */
  lemma TryRuns(size: nat, s: System, g: Geometry, key: nat, point: seq<nat>) returns (events: seq<Event>, t: System)
    requires key != 0 && GeoOk(g) && 1 <= g.levels && CentreOk(g, point) && point != Zeros(|g.grid|) && Bootstrapping(g, key, s)
    ensures ConfigOk(Flat(size)) && Protocol.Runs(Flat(size), s, events, t)
    ensures t.hub == s.hub.(evaluated := t.hub.evaluated) && t.links.Keys == {0}
    ensures
      var l := s.links[0];
      t.links[0] == l.(peer := l.peer.(value := 0.0, going := false), outbox := [Found(key, l.peer.view, point, 0.0)])
  {
    FlatOk(size);
    PointOkIff(g, point);
    hide CentreOk, PointOk, Aim, FreshSearch;
    var cfg := Flat(size);
    var u := Step(cfg, s, TryPoint(0, point));
    var r := Found(key, s.links[0].peer.view, point, 0.0);
    assert [] + [r] == [r];
    assert u.links.Keys == {0};
    t := Step(cfg, u, SendDone(0));
    assert t.links.Keys == {0};
    hide Enabled, Step, Protocol.Runs;
    RunsOne(cfg, u, SendDone(0), t);
    events := [TryPoint(0, point)] + [SendDone(0)];
    AlsoRuns(cfg, s, TryPoint(0, point), u, [SendDone(0)], t);
  }

  lemma CentreGeo(g: Geometry, centre: seq<nat>)
    requires CentreOk(g, centre)
    ensures GeoOk(g) && InRange(First(g.grid), centre) && 1 <= g.levels && |centre| == |g.grid| == |g.ended|
  {
    SomeLevel(g);
  }

  lemma BootSearch(g: Geometry, centre: seq<nat>, redistribute: bool)
    requires CentreOk(g, centre)
    ensures 1 <= g.levels && GeoOk(g) && InRange(First(g.grid), centre) && Ok(FreshSearch(g, redistribute))
    ensures OnBootReport(FreshSearch(g, redistribute), centre, 0.0) == SearchAt(g, centre, 0)
  {
    CentreGeo(g, centre);
    ZerosOk(g);
    BootCentreOk(g, Zeros(|g.grid|), centre);
    assert BootCentre(g, Zeros(|g.grid|), centre) == centre;
    StartSeen(g, centre);
    hide Upto, Total, CodeOf, FineGrid, InRange, LevelWork, SkippedScan.Seen;
    UptoMono(g, 0, 1);
  }

  lemma StartSeen(g: Geometry, centre: seq<nat>)
    requires CentreOk(g, centre) && 1 <= g.levels && |centre| == |g.grid| && GeoOk(g)
    ensures SkippedScan.Seen(g, centre, 0) == {CodeOf(g, centre)}
  {
    hide CodeOf, FineGrid, InRange, Site;
  }

  /** The server reads the point, goes there, and hands out the first level under the next key. */
  lemma BootReads(size: nat, s: System, g: Geometry, centre: seq<nat>, key: nat, v: View)
    returns (events: seq<Event>, t: System)
    requires CentreOk(g, centre) && 1 <= g.levels && GeoOk(g)
    requires s.hub.search == FreshSearch(g, s.hub.search.redistribute) && s.hub.key == key
    requires s.hub.phase.Idle? && s.links.Keys == {0}
    requires
      var l := s.links[0];
      && l.outbox == [Found(key, v, centre, 0.0)] && l.inbox == [] && !l.writing && !l.late && !l.sending
    ensures ConfigOk(Flat(size)) && Protocol.Runs(Flat(size), s, events, t) && t.hub.size == s.hub.size
    ensures t.hub.search == SearchAt(g, centre, 0) && t.hub.key == key + 1 && t.hub.phase.Idle? && t.links.Keys == {0}
    ensures
      var w := Entering(g, centre, 0);
      t.links[0] == s.links[0].(outbox := [], echo := key, share := w, writing := true,
                                inbox := [Full(key + 1, Epoch(FrameOf(g), centre, false), 0.0, w)])
  {
    FlatOk(size);
    BootSearch(g, centre, s.hub.search.redistribute);
    hide CentreOk, GeoOk, Upto, Entering, ConfigOk, InRange, Ok, OnBootReport, FreshSearch, SearchAt, SkippedScan.Seen,
         Protocol.Runs;
    var w, r := Entering(g, centre, 0), Found(key, v, centre, 0.0);
    var deal: map<nat, set<nat>> := map[0 := w];
    AfterBootAt(s.hub, g, centre, key, r);
    assert [r][1..] == [];
    t := BootStep(Flat(size), s, r, deal);
    hide AfterBoot, CanBoot, Enabled, Step;
    var m := Full(key + 1, Epoch(FrameOf(g), centre, false), 0.0, w);
    assert [] + [m] == [m];
    RunsOne(Flat(size), s, Event.Report(0, deal), t);
    events := [Event.Report(0, deal)];
  }

  lemma BootStep(cfg: Config, s: System, r: Report, deal: map<nat, set<nat>>) returns (t: System)
    requires ConfigOk(cfg) && s.links.Keys == {0} && s.links[0].outbox == [r] && s.hub.phase.Idle? && r.key == s.hub.key
    requires CanBoot(s.hub, r) && 0 in deal && deal[0] == AfterBoot(s.hub, r).search.remaining
    ensures Enabled(cfg, s, Event.Report(0, deal)) && Step(cfg, s, Event.Report(0, deal)) == t
    ensures t.hub == AfterBoot(s.hub, r) && t.links.Keys == {0}
    ensures t.links[0] == Send(cfg, t.hub, s.links[0].(outbox := [], echo := r.key, share := deal[0]), FullOf(t.hub, deal[0]))
  {
    hide CanBoot, AfterBoot, Send, ConfigOk;
    assert [r][1..] == [];
    t := Step(cfg, s, Event.Report(0, deal));
    assert t.links.Keys == {0};
  }

  lemma AfterBootAt(h: Hub, g: Geometry, centre: seq<nat>, key: nat, r: Report)
    requires CentreOk(g, centre) && 1 <= g.levels && GeoOk(g) && InRange(First(g.grid), centre)
    requires r.Found? && r.point == centre && r.value == 0.0 && r.key == key
    requires h.search == FreshSearch(g, h.search.redistribute) && h.key == key && h.phase.Idle? && Ok(h.search)
    requires OnBootReport(h.search, centre, 0.0) == SearchAt(g, centre, 0)
    ensures CanBoot(h, r)
    ensures
      var t, e := AfterBoot(h, r), Epoch(FrameOf(g), centre, false);
      t == h.(search := SearchAt(g, centre, 0), key := key + 1, msgKey := key + 1, msgEpoch := e, msgValue := 0.0)
      && t.search.remaining == Entering(g, centre, 0)
  {
    hide CentreOk, Entering, InRange, Ok, OnBootReport, SkippedScan.Seen, Upto, GeoOk;
  }

  /** Whoever has been sent the whole state reads it, and the write is through. */
  lemma FullRead(size: nat, s: System, m: Message) returns (events: seq<Event>, t: System)
    requires s.links.Keys == {0} && m.Full? && m.key != s.links[0].peer.key
    requires s.links[0].inbox == [m] && s.links[0].writing && !s.links[0].late
    ensures ConfigOk(Flat(size)) && Protocol.Runs(Flat(size), s, events, t) && t.hub == s.hub && t.links.Keys == {0}
    ensures
      var l, host := s.links[0], s.links[0].peer.host;
      t.links[0] == l.(inbox := [], writing := false,
        peer := Peer(m.key, ViewOf(host, m.key, m.epoch), m.value, m.work, {}, None, host, false, true, false))
  {
    hide ViewOf, ConfigOk, Flat;
    FlatOk(size);
    var cfg := Flat(size);
    assert [m][1..] == [];
    var u := Step(cfg, s, ReadMessage(0));
    assert u.links.Keys == {0};
    t := Step(cfg, u, WriteDone(0));
    assert t.links.Keys == {0};
    hide Enabled, Step, Protocol.Runs;
    RunsOne(cfg, u, WriteDone(0), t);
    events := [ReadMessage(0)] + [WriteDone(0)];
    AlsoRuns(cfg, s, ReadMessage(0), u, [WriteDone(0)], t);
  }

  lemma ViewAt(host: Host, g: Geometry, centre: seq<nat>, key: nat)
    requires CentreOk(g, centre) && Makeable(host.size, g)
    ensures
      var v := ViewOf(host, key, Epoch(FrameOf(g), centre, false));
      Agrees(v, g) && v.centre == centre && !v.boot
  {
    CentreGeo(g, centre);
    var intended :| Made(g, host.size, intended);
    hide CentreOk, GeoOk, Made, ViewOf, Agrees;
    ViewAgrees(host, key, g, intended, centre, false);
  }

  /** The server recentres on the reported point, and its peer has the first level. */
  lemma BootRuns(size: nat, s: System, g: Geometry, centre: seq<nat>, key: nat, v: View) returns (events: seq<Event>, t: System)
    requires CentreOk(g, centre) && Makeable(s.hub.size, g) && 1 <= g.levels && GeoOk(g)
    requires s.hub.search == FreshSearch(g, s.hub.search.redistribute) && s.hub.key == key
    requires s.hub.phase.Idle? && s.links.Keys == {0}
    requires
      var l := s.links[0];
      && l.outbox == [Found(key, v, centre, 0.0)] && l.inbox == [] && !l.writing && !l.late && !l.sending
      && l.peer.key == key && l.peer.host.size == s.hub.size
    ensures ConfigOk(Flat(size)) && Protocol.Runs(Flat(size), s, events, t) && Working(g, centre, 0, key + 1, t)
    ensures t.hub.size == s.hub.size
  {
    hide CentreOk, GeoOk, Entering, ConfigOk, FreshSearch, SearchAt, ViewOf, Makeable, Agrees, Protocol.Runs, Flat;
    var a, s1 := BootReads(size, s, g, centre, key, v);
    var m := Full(key + 1, Epoch(FrameOf(g), centre, false), 0.0, Entering(g, centre, 0));
    var b;
    b, t := FullRead(size, s1, m);
    ViewAt(s.links[0].peer.host, g, centre, key + 1);
    events := a + b;
    RunsOn(Flat(size), s, a, s1, b, t);
  }

  // ----- From a fresh table to any level, and past the last one -----

  lemma FirstEntering(g: Geometry, centre: seq<nat>)
    requires CentreOk(g, centre) && 1 <= g.levels && exists j :: 0 <= j < |g.ended| && !g.ended[j]
    ensures Entering(g, centre, 0) != {}
  {
    CentreGeo(g, centre);
    StartSeen(g, centre);
    FirstWorkExists(g, centre);
  }

  /** To any level that has something to do, around any centre but index zero. */
  lemma ToLevel(size: nat, s: System, g: Geometry, centre: seq<nat>, l: nat, key: nat) returns (events: seq<Event>, t: System)
    requires key != 0 && Makeable(s.hub.size, g) && CentreOk(g, centre) && l < g.levels && Entering(g, centre, l) != {}
    requires GeoOk(g) && 1 <= g.levels && Bootstrapping(g, key, s) && !AllEnded(g) && centre != Zeros(|g.grid|)
    ensures ConfigOk(Flat(size)) && Protocol.Runs(Flat(size), s, events, t)
    ensures Working(g, centre, l, key + 1, t) && t.hub.size == s.hub.size
  {
    hide Working, Entering, Makeable, CentreOk, GeoOk, Protocol.Runs, ConfigOk, FreshSearch;
    FlatOk(size);
    FirstEntering(g, centre);
    var a, s1 := TryRuns(size, s, g, key, centre);
    var b, s2 := BootRuns(size, s1, g, centre, key, s.links[0].peer.view);
    var c;
    c, t := LevelsRun(size, s2, g, centre, 0, l, key + 1);
    events := a + (b + c);
    RunsOn(Flat(size), s1, b, s2, c, t);
    RunsOn(Flat(size), s, a, s1, b + c, t);
  }

  /** The last level that has something to do. */
  lemma {:induction false} LastEntering(g: Geometry, centre: seq<nat>, m: nat, n: nat) returns (l: nat)
    requires CentreOk(g, centre) && m < n <= g.levels && Entering(g, centre, m) != {}
    requires forall k :: n <= k < g.levels ==> Entering(g, centre, k) == {}
    ensures m <= l < g.levels && Entering(g, centre, l) != {}
    ensures forall k :: l < k < g.levels ==> Entering(g, centre, k) == {}
    decreases n
  {
    hide CentreOk, Entering;
    if Entering(g, centre, n - 1) != {} {
      l := n - 1;
    } else {
      l := LastEntering(g, centre, m, n - 1);
    }
  }

  /** After it nothing is left. */
  lemma {:induction false} AdvancePast(s: State)
    requires Ok(s) && s.remaining == {} && s.visited == SkippedScan.Seen(s.geo, s.centre, s.level + 1)
    requires forall k :: s.level < k < s.geo.levels ==> Entering(s.geo, s.centre, k) == {}
    ensures Advance(s).level == s.geo.levels
    decreases s.geo.levels - s.level
  {
    hide FineGrid, InRange, Site, Upto, Total, LevelWork, CodeOf, SkippedScan.Seen, SitesOf;
    var n := s.level + 1;
    if n < s.geo.levels {
      var t := s.(level := n, remaining := Entering(s.geo, s.centre, n));
      SeenNext(s.geo, s.centre, n);
      NoSites(s.geo, s.centre, Entering(s.geo, s.centre, n));
      assert Ok(t) && Advance(s) == Advance(t);
      AdvancePast(t);
    }
  }

  /** The sync has come past the last level. */
  ghost predicate AtShrink(g: Geometry, centre: seq<nat>, key: nat, s: System) {
    && Ok(s.hub.search) && s.hub.search.geo == g && s.hub.search.centre == centre && s.hub.search.redistribute
    && Advance(s.hub.search).level >= g.levels && s.hub.key == key && s.hub.phase.Advancing? && s.links.Keys == {0}
    && Waiting(s.links[0], g, centre, key) && s.links[0].peer.host.size == s.hub.size
  }

  /** The box shrinks, and everybody is sent the whole state. */
  lemma ShrinksTo(size: nat, s: System, g: Geometry, centre: seq<nat>, key: nat, next: Geometry) returns (t: System)
    requires AtShrink(g, centre, key, s)
    requires Makeable(s.hub.size, next) && Narrower(g, next) && !AllEnded(next) && GeoOk(next) && 1 <= next.levels
    ensures
      var deal: map<nat, set<nat>> := map[0 := {}];
      ConfigOk(Flat(size)) && Enabled(Flat(size), s, Finish(next, deal, {})) && Step(Flat(size), s, Finish(next, deal, {})) == t
    ensures t.hub.search == FreshSearch(next, false) && !t.hub.search.redistribute && t.hub.key == key + 1 && t.hub.phase.Idle?
    ensures t.hub.size == s.hub.size && t.links.Keys == {0}
    ensures
      t.links[0] == s.links[0].(writing := true,
                                inbox := [Full(key + 1, Epoch(FrameOf(next), Zeros(|next.grid|), true), 1.0, {})])
  {
    hide CentreOk, ConfigOk, PeerAt, Advance, Ok, GeoOk, Makeable, Upto, AllEnded, Narrower;
    FlatOk(size);
    var deal: map<nat, set<nat>> := map[0 := {}];
    t := Step(Flat(size), s, Finish(next, deal, {}));
    var m := Full(key + 1, Epoch(FrameOf(next), Zeros(|next.grid|), true), 1.0, {});
    assert [] + [m] == [m];
    assert t.links.Keys == {0};
  }

  /** From the last level that has something to do to where the box shrinks. */
  lemma PastLast(size: nat, s: System, g: Geometry, centre: seq<nat>, m: nat, key: nat) returns (events: seq<Event>, t: System)
    requires key != 0 && CentreOk(g, centre) && m < g.levels && Working(g, centre, m, key, s) && Entering(g, centre, m) != {}
    requires forall k :: m < k < g.levels ==> Entering(g, centre, k) == {}
    ensures ConfigOk(Flat(size)) && Protocol.Runs(Flat(size), s, events, t)
    ensures AtShrink(g, centre, key, t) && t.hub.size == s.hub.size
  {
    hide CentreOk, Entering, ConfigOk, Ok, Working, LevelDone, Step, Enabled, Protocol.Runs, Flat, Advance, PeerAt,
         SkippedScan.Seen;
    FlatOk(size);
    var a, s1 := LevelDoes(size, s, g, centre, m, key);
    t := Begins(size, s1, g, centre, m, key);
    LevelDoneParts(g, centre, m, key, s1);
    AdvancePast(Absorbed(g, centre, m));
    RunsOne(Flat(size), s1, Event.Start, t);
    events := a + [Event.Start];
    RunsOn(Flat(size), s, a, s1, [Event.Start], t);
  }

  /** From there to the next table, which the peer has read. */
  lemma FromShrink(size: nat, s: System, g: Geometry, centre: seq<nat>, key: nat, next: Geometry)
    returns (events: seq<Event>, t: System)
    requires AtShrink(g, centre, key, s)
    requires Makeable(s.hub.size, next) && Narrower(g, next) && !AllEnded(next) && GeoOk(next) && 1 <= next.levels
    ensures ConfigOk(Flat(size)) && Protocol.Runs(Flat(size), s, events, t)
    ensures Bootstrapping(next, key + 1, t) && t.hub.size == s.hub.size && t.hub.search.geo == next
    ensures
      var host := s.links[0].peer.host;
      t.links[0].peer.host == host
      && t.links[0].peer.view == ViewOf(host, key + 1, Epoch(FrameOf(next), Zeros(|next.grid|), true))
  {
    hide ConfigOk, Ok, Makeable, Step, Enabled, Protocol.Runs, Flat, AllEnded, Narrower, Advance, GeoOk, PeerAt, ViewOf,
         NewPeer, Upto;
    FlatOk(size);
    var deal: map<nat, set<nat>> := map[0 := {}];
    var s1 := ShrinksTo(size, s, g, centre, key, next);
    PeerKey(s1.links[0].peer, g, centre, key);
    var b;
    b, t := FullRead(size, s1, Full(key + 1, Epoch(FrameOf(next), Zeros(|next.grid|), true), 1.0, {}));
    NewPeerAt(t.links[0].peer, next, key + 1);
    events := [Finish(next, deal, {})] + b;
    AlsoRuns(Flat(size), s, Finish(next, deal, {}), s1, b, t);
  }

  lemma PeerKey(p: Peer, g: Geometry, centre: seq<nat>, key: nat)
    requires PeerAt(p, g, centre, key)
    ensures p.key == key
  {
  }

  /** Some centre other than index zero. */
  lemma SomeCentre(size: nat, g: Geometry) returns (centre: seq<nat>)
    requires Makeable(size, g) && !AllEnded(g)
    ensures CentreOk(g, centre) && centre != Zeros(|g.grid|)
  {
    var j :| 0 <= j < |g.ended| && !g.ended[j];
    ZerosOk(g);
    assert Fine(g.grid[j]);
    centre := Zeros(|g.grid|)[j := 1];
    assert centre[j] != Zeros(|g.grid|)[j];
  }

  /** All levels around a centre, to where the box shrinks. */
  lemma ToShrink(size: nat, s: System, g: Geometry, key: nat, centre: seq<nat>) returns (events: seq<Event>, t: System)
    requires key != 0 && GeoOk(g) && 1 <= g.levels && Makeable(s.hub.size, g) && !AllEnded(g) && Bootstrapping(g, key, s)
    requires CentreOk(g, centre) && centre != Zeros(|g.grid|)
    ensures ConfigOk(Flat(size)) && Protocol.Runs(Flat(size), s, events, t)
    ensures AtShrink(g, centre, key + 1, t) && t.hub.size == s.hub.size
  {
    hide Working, Entering, Makeable, CentreOk, GeoOk, Protocol.Runs, ConfigOk, Bootstrapping, AtShrink;
    FlatOk(size);
    FirstEntering(g, centre);
    var l := LastEntering(g, centre, 0, g.levels);
    var a, s1 := ToLevel(size, s, g, centre, l, key);
    var b;
    b, t := PastLast(size, s1, g, centre, l, key + 1);
    events := a + b;
    RunsOn(Flat(size), s, a, s1, b, t);
  }

  /** One table after another. */
  lemma NextTable(size: nat, s: System, g: Geometry, key: nat, next: Geometry) returns (events: seq<Event>, t: System)
    requires key != 0 && GeoOk(g) && 1 <= g.levels && Makeable(s.hub.size, g) && !AllEnded(g) && Bootstrapping(g, key, s)
    requires Makeable(s.hub.size, next) && Narrower(g, next) && !AllEnded(next) && GeoOk(next) && 1 <= next.levels
    ensures ConfigOk(Flat(size)) && Protocol.Runs(Flat(size), s, events, t)
    ensures Bootstrapping(next, key + 2, t) && t.hub.size == s.hub.size
  {
    hide Makeable, CentreOk, GeoOk, Protocol.Runs, ConfigOk, Bootstrapping, Narrower, AtShrink;
    FlatOk(size);
    var centre := SomeCentre(s.hub.size, g);
    var a, s1 := ToShrink(size, s, g, key, centre);
    var b;
    b, t := FromShrink(size, s1, g, centre, key + 1, next);
    events := a + b;
    RunsOn(Flat(size), s, a, s1, b, t);
  }
}
