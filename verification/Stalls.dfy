/** Where a peer has dropped a unit, the search can come to a standstill: the server waits for a report that no peer owes it.
    From every list of six units there is a run to such a state, and nothing but a new peer leads out of it. */
module Stalls {
  import opened Combos
  import opened Coefficients
  import opened Positions
  import opened Sites
  import opened Views
  import opened Zooming
  import opened Duplicates
  import opened SkippedScan
  import opened Search
  import opened Protocol
  import opened Runs
  import opened FlatRuns
  import LostFind
  import Safety
  import Duties
  import Service
  import Accounts

  // ----- Standing still -----

  /** Nothing is under way, and the peer has nothing to do or to report. */
  ghost predicate Resting(l: Link) {
    && l.inbox == [] && l.outbox == [] && !l.writing && !l.late && !l.sending
    && l.peer.work == {} && l.peer.unreported == {} && l.peer.draft.None? && !l.peer.view.boot
  }

  /** There are units left to do, no work is to be dealt, and every peer rests. */
  ghost predicate Stalled(s: System) {
    && (s.hub.phase.Idle? || s.hub.phase.Advancing?) && Ok(s.hub.search) && !s.hub.search.boot
    && s.hub.search.remaining != {} && s.hub.search.accumulated == {} && s.hub.search.best.None? && !s.hub.search.redistribute
    && forall i :: i in s.links ==> Resting(s.links[i])
  }

  /** Nobody joins; and where nobody has reported anything, nobody is told that others have done work for him. */
  predicate NoHelp(e: Event) { !e.Join? && (e.Finish? ==> e.assist == {}) }

  lemma StillStalled(cfg: Config, s: System, e: Event)
    requires ConfigOk(cfg) && Enabled(cfg, s, e) && Stalled(s) && NoHelp(e)
    ensures Stalled(Step(cfg, s, e)) && Step(cfg, s, e).hub.search == s.hub.search
    ensures Step(cfg, s, e).hub.evaluated == s.hub.evaluated
  {
    hide Ok, Makeable, Narrower, Narrowed, ViewOk, Span, IsNext, ConfigOk, PointOk;
    LevelLeft(s.hub.search);
    match e
    case Start => assert Absorb(s.hub.search, SyncEmpties(s)) == s.hub.search;
    case Finish(_, _, _) => assert Advanced(s.hub) == s.hub.search;
    case _ =>
  }

  lemma LevelLeft(s: State)
    requires Ok(s)
    ensures s.level < s.geo.levels
  {
  }

  /** From then on nothing is evaluated, and the list stays as it is. */
  lemma {:induction false} StallsForever(cfg: Config, s: System, events: seq<Event>, t: System)
    requires ConfigOk(cfg) && Protocol.Runs(cfg, s, events, t) && Stalled(s) && forall k :: 0 <= k < |events| ==> NoHelp(events[k])
    ensures Stalled(t) && t.hub.search == s.hub.search && t.hub.evaluated == s.hub.evaluated
    decreases |events|
  {
    hide Stalled, Step, Enabled;
    if events != [] {
      StillStalled(cfg, s, events[0]);
      StallsForever(cfg, Step(cfg, s, events[0]), events[1..], t);
    }
  }

  // ----- How it comes to that -----

  /** A peer around the server's centre that has made no find. */
  ghost predicate PlainPeer(p: Peer, g: Geometry, centre: seq<nat>, key: nat) {
    && p.key == key && Agrees(p.view, g) && p.view.centre == centre && !p.view.boot && p.value == 0.0 && !p.gagged && p.going
    && (p.draft.Some? ==> p.draft.value.Done? && p.draft.value.find.None?)
  }

  /** A unit that is not the last leaves the list. It is listed in a report, with what has been kept back, where one is due. */
  ghost function UnitGone(l: Link, c: nat): Link {
    var p := l.peer.(work := l.peer.work - {c}, unreported := l.peer.unreported + {c});
    if p.due then Reporting(l, p.(due := false), Done(p.key, p.view, 0.0, None, p.unreported)) else l.(peer := p)
  }

  lemma UnitIs(size: nat, h: Hub, l: Link, g: Geometry, centre: seq<nat>, key: nat, c: nat)
    requires key != 0 && CentreOk(g, centre) && PlainPeer(l.peer, g, centre, key) && c in l.peer.work && l.peer.work != {c}
    requires c < Total(g)
    ensures
      var cfg := Flat(size);
      && ConfigOk(cfg) && CanProcess(l.peer, c) && Process(cfg, l, c) == UnitGone(l, c)
      && LostNow(cfg, h, l, c) == {} && OverlookedNow(cfg, h, l, c) == {}
  {
    hide CentreOk, Total, Aim, Span, Where, ViewOk, PointsOf, Point;
    FlatOk(size);
    AgreesPoint(l.peer.view, g, c);
    AgreesView(l.peer.view, g);
    assert !Improves(Flat(size), l.peer, c);
    assert l.peer.work - {c} == {} <==> l.peer.work == {c};
  }

  /** What is left of a list one unit of which has gone. */
  lemma OneLess(work: set<nat>, c: nat)
    requires c in work && |work| >= 2
    ensures |work - {c}| == |work| - 1 && work != {c} && work - {c} != {}
  {
  }

  lemma NextIn(work: set<nat>, c: nat)
    requires IsNext(work, c)
    ensures c in work
  {
  }

  lemma GonePlain(l: Link, g: Geometry, centre: seq<nat>, key: nat, c: nat)
    requires PlainPeer(l.peer, g, centre, key) && CentreOk(g, centre) && Inside(g, l.peer.work)
    ensures PlainPeer(UnitGone(l, c).peer, g, centre, key) && Inside(g, UnitGone(l, c).peer.work)
  {
    hide Agrees, Total, CentreOk;
  }

  lemma UnitGoes(size: nat, s: System, g: Geometry, centre: seq<nat>, key: nat) returns (c: nat, t: System)
    requires key != 0 && CentreOk(g, centre) && s.links.Keys == {0} && PlainPeer(s.links[0].peer, g, centre, key)
    requires Inside(g, s.links[0].peer.work) && |s.links[0].peer.work| >= 2
    ensures ConfigOk(Flat(size)) && Protocol.Runs(Flat(size), s, [Evaluate(0, c)], t)
    ensures c in s.links[0].peer.work && |s.links[0].peer.work - {c}| == |s.links[0].peer.work| - 1
    ensures t.hub == s.hub.(evaluated := t.hub.evaluated) && t.links.Keys == {0} && t.links[0] == UnitGone(s.links[0], c)
    ensures PlainPeer(t.links[0].peer, g, centre, key) && Inside(g, t.links[0].peer.work)
  {
    hide CentreOk, Total, LostNow, OverlookedNow, Process, Protocol.Runs, Agrees, Flat, CanProcess, Stands, ConfigOk, UnitGone,
         IsNext, Computed;
    var cfg, l := Flat(size), s.links[0];
    CentreGeo(g, centre);
    c := NextUnit(l.peer.work, 0, Total(g));
    assert c in l.peer.work by { NextIn(l.peer.work, c); }
    OneLess(l.peer.work, c);
    GonePlain(l, g, centre, key, c);
    UnitIs(size, s.hub, l, g, centre, key, c);
    t := Step(cfg, s, Evaluate(0, c));
    assert t.links.Keys == {0} && t.links[0] == UnitGone(l, c);
    hide Step, Enabled;
    RunsOne(cfg, s, Evaluate(0, c), t);
  }

  /** The timer makes a report due. */
  lemma Waits(size: nat, s: System, g: Geometry, centre: seq<nat>, key: nat) returns (t: System)
    requires s.links.Keys == {0} && PlainPeer(s.links[0].peer, g, centre, key) && s.links[0].peer.unreported != {}
    ensures ConfigOk(Flat(size)) && Protocol.Runs(Flat(size), s, [ReportDue(0)], t)
    ensures t.hub == s.hub && t.links.Keys == {0} && PlainPeer(t.links[0].peer, g, centre, key)
    ensures var l := s.links[0]; t.links[0] == l.(peer := l.peer.(due := true))
  {
    hide Agrees, Flat, ConfigOk, Protocol.Runs;
    FlatOk(size);
    t := Step(Flat(size), s, ReportDue(0));
    assert t.links.Keys == {0};
    RunsOne(Flat(size), s, ReportDue(0), t);
  }

  /** One more step of a run, and then another run. */
  lemma Then(cfg: Config, s: System, first: seq<Event>, t: System, e: Event, u: System) returns (events: seq<Event>)
    requires ConfigOk(cfg) && Protocol.Runs(cfg, s, first, t) && Protocol.Runs(cfg, t, [e], u)
    ensures Protocol.Runs(cfg, s, events, u)
  {
    hide Protocol.Runs;
    events := first + [e];
    RunsOn(cfg, s, first, t, [e], u);
  }

  /** Two units and a report of both, at once or as the draft. */
  lemma TwoReported(size: nat, s: System, g: Geometry, centre: seq<nat>, key: nat) returns (events: seq<Event>, t: System, two: set<nat>)
    requires key != 0 && CentreOk(g, centre) && s.links.Keys == {0} && PlainPeer(s.links[0].peer, g, centre, key)
    requires Inside(g, s.links[0].peer.work) && |s.links[0].peer.work| >= 3
    requires s.links[0].peer.unreported == {} && !s.links[0].peer.due
    ensures ConfigOk(Flat(size)) && Protocol.Runs(Flat(size), s, events, t)
    ensures t.hub == s.hub.(evaluated := t.hub.evaluated) && t.links.Keys == {0}
    ensures two <= s.links[0].peer.work && two != {} && |s.links[0].peer.work - two| == |s.links[0].peer.work| - 2
    ensures
      var l := s.links[0];
      t.links[0] == Reporting(l, l.peer.(work := l.peer.work - two, unreported := two), Done(key, l.peer.view, 0.0, None, two))
    ensures PlainPeer(t.links[0].peer, g, centre, key) && Inside(g, t.links[0].peer.work)
  {
    hide CentreOk, Total, Protocol.Runs, Agrees, Flat, ConfigOk;
    var cfg := Flat(size);
    var work := s.links[0].peer.work;
    var c, s1 := UnitGoes(size, s, g, centre, key);
    var s2 := Waits(size, s1, g, centre, key);
    var d, s3 := UnitGoes(size, s2, g, centre, key);
    t, two := s3, {c, d};
    assert work - {c} - {d} == work - two && {} + {c} + {d} == two;
    events := Then(cfg, s, [Evaluate(0, c)], s1, ReportDue(0), s2);
    events := Then(cfg, s, events, s2, Evaluate(0, d), s3);
  }

  /** A report about `units` without a find. */
  function Plain(l: Link, key: nat, units: set<nat>): Report { Done(key, l.peer.view, 0.0, None, units) }

  /** A write of the peer's is through. */
  lemma Writes(size: nat, s: System) returns (t: System)
    requires s.links.Keys == {0} && s.links[0].sending
    ensures ConfigOk(Flat(size)) && Protocol.Runs(Flat(size), s, [SendDone(0)], t)
    ensures t.hub == s.hub && t.links.Keys == {0} && t.links[0] == Sent(s.links[0])
  {
    hide Flat, ConfigOk, Protocol.Runs;
    FlatOk(size);
    t := Step(Flat(size), s, SendDone(0));
    assert t.links.Keys == {0};
    RunsOne(Flat(size), s, SendDone(0), t);
  }

  /** The peer drops a unit: it sends a report, drafts another while that is being written, and does one more unit before the
      draft goes out. */
  lemma UnitDropped(size: nat, s: System, g: Geometry, centre: seq<nat>, key: nat)
    returns (events: seq<Event>, t: System, a: set<nat>, b: set<nat>, c: nat)
    requires key != 0 && CentreOk(g, centre) && s.links.Keys == {0} && PlainPeer(s.links[0].peer, g, centre, key)
    requires Inside(g, s.links[0].peer.work) && |s.links[0].peer.work| >= 6 && s.links[0].peer.draft.None?
    requires s.links[0].peer.unreported == {} && !s.links[0].peer.due && !s.links[0].sending && s.links[0].outbox == []
    ensures ConfigOk(Flat(size)) && Protocol.Runs(Flat(size), s, events, t)
    ensures t.hub == s.hub.(evaluated := t.hub.evaluated) && t.links.Keys == {0}
    ensures
      var l, w := s.links[0], s.links[0].peer.work;
      && a != {} && b != {} && a <= w && b <= w - a && c in w - a - b && w - a - b - {c} != {}
      && t.links[0] == l.(peer := l.peer.(work := w - a - b - {c}), outbox := [Plain(l, key, a), Plain(l, key, b)])
  {
    hide CentreOk, Total, Protocol.Runs, Agrees, Flat, ConfigOk, PlainPeer;
    var cfg, l := Flat(size), s.links[0];
    var w := l.peer.work;
    var s1, s2, s3, s4, more;
    events, s1, a := TwoReported(size, s, g, centre, key);
    assert [] + [Plain(l, key, a)] == [Plain(l, key, a)];
    more, s2, b := TwoReported(size, s1, g, centre, key);
    RunsOn(cfg, s, events, s1, more, s2);
    events := events + more;
    c, s3 := UnitGoes(size, s2, g, centre, key);
    events := Then(cfg, s, events, s2, Evaluate(0, c), s3);
    s4 := Writes(size, s3);
    events := Then(cfg, s, events, s3, SendDone(0), s4);
    t := Writes(size, s4);
    events := Then(cfg, s, events, s4, SendDone(0), t);
    assert [Plain(l, key, a)] + [Plain(l, key, b)] == [Plain(l, key, a), Plain(l, key, b)];
  }

  // ----- What the server makes of it -----

  /** The server reads a report that does not empty the peer's share. */
  lemma Reads(size: nat, s: System) returns (e: Event, t: System)
    requires s.links.Keys == {0} && s.hub.phase.Idle? && s.links[0].outbox != []
    requires
      var r := s.links[0].outbox[0];
      r.Done? && r.find.None? && r.key == s.hub.key && s.links[0].share - r.units != {}
    ensures ConfigOk(Flat(size)) && Protocol.Runs(Flat(size), s, [e], t) && t.links.Keys == {0}
    ensures
      var l, r := s.links[0], s.links[0].outbox[0];
      && t.hub == s.hub.(search := s.hub.search.(accumulated := s.hub.search.accumulated + r.units))
      && t.links[0] == l.(outbox := l.outbox[1..], echo := r.key, share := l.share - r.units)
  {
    hide Flat, ConfigOk, Protocol.Runs, AfterBoot, Dealt, Ok;
    FlatOk(size);
    e := Event.Report(0, map[0 := {}]);
    t := Step(Flat(size), s, e);
    assert t.links.Keys == {0};
    RunsOne(Flat(size), s, e, t);
  }

  /** It reads all three, and none of them empties the share. */
  lemma AllRead(size: nat, s: System, a: set<nat>, b: set<nat>, d: set<nat>, c: nat) returns (events: seq<Event>, t: System)
    requires s.links.Keys == {0} && s.hub.phase.Idle? && c in s.links[0].share && c !in a + b + d
    requires var l, key := s.links[0], s.hub.key; l.outbox == [Plain(l, key, a), Plain(l, key, b), Plain(l, key, d)]
    ensures ConfigOk(Flat(size)) && Protocol.Runs(Flat(size), s, events, t) && t.links.Keys == {0}
    ensures
      var l, done := s.links[0], a + b + d;
      && t.hub == s.hub.(search := s.hub.search.(accumulated := s.hub.search.accumulated + done))
      && t.links[0] == l.(outbox := [], echo := s.hub.key, share := l.share - done)
  {
    hide Flat, ConfigOk, Protocol.Runs;
    var cfg, l := Flat(size), s.links[0];
    var s1, s2, e1, e2, e3;
    assert c in l.share - a && c in l.share - a - b && c in l.share - a - b - d;
    e1, s1 := Reads(size, s);
    e2, s2 := Reads(size, s1);
    e3, t := Reads(size, s2);
    events := Then(cfg, s, [e1], s1, e2, s2);
    events := Then(cfg, s, events, s2, e3, t);
    assert l.share - a - b - d == l.share - (a + b + d);
    assert s.hub.search.accumulated + a + b + d == s.hub.search.accumulated + (a + b + d);
  }

  /** The sync takes all but one unit off the list, and nobody has run out of work. */
  lemma Syncs(size: nat, s: System, g: Geometry, centre: seq<nat>, m: nat, work: set<nat>, c: nat) returns (t: System)
    requires CentreOk(g, centre) && m < g.levels && Inside(g, work) && c in work && s.links.Keys == {0} && s.hub.phase.Idle?
    requires s.links[0].share == {c} && Resting(s.links[0])
    requires
      var u := s.hub.search;
      && u.geo == g && u.centre == centre && u.level == m && u.remaining == work && u.accumulated == work - {c}
      && u.best.None? && !u.boot && !u.redistribute
    ensures ConfigOk(Flat(size)) && Protocol.Runs(Flat(size), s, [Event.Start], t) && Stalled(t)
    ensures t.hub.search.remaining == {c} && t.hub.search.geo == g && t.links.Keys == {0} && t.links[0].share == {c}
  {
    hide Flat, ConfigOk, Protocol.Runs, CentreOk, Total, SitesOf;
    FlatOk(size);
    assert work - (work - {c}) == {c} && {c} - (work - {c}) == {c};
    assert !SyncEmpties(s);
    t := Step(Flat(size), s, Event.Start);
    assert t.links.Keys == {0};
    RunsOne(Flat(size), s, Event.Start, t);
  }

  // ----- The standstill -----

  /** The peer does the whole list and drops a unit; it has sent three reports about the rest. */
  lemma AllButOne(size: nat, s: System, g: Geometry, centre: seq<nat>, key: nat)
    returns (events: seq<Event>, t: System, a: set<nat>, b: set<nat>, d: set<nat>, c: nat)
    requires key != 0 && CentreOk(g, centre) && s.links.Keys == {0} && PlainPeer(s.links[0].peer, g, centre, key)
    requires Inside(g, s.links[0].peer.work) && |s.links[0].peer.work| >= 6 && s.links[0].peer.draft.None?
    requires s.links[0].peer.unreported == {} && !s.links[0].peer.due && !s.links[0].sending && s.links[0].outbox == []
    ensures ConfigOk(Flat(size)) && Protocol.Runs(Flat(size), s, events, t)
    ensures t.hub == s.hub.(evaluated := t.hub.evaluated) && t.links.Keys == {0}
    ensures
      var l, w := s.links[0], s.links[0].peer.work;
      && c in w && a + b + d == w - {c}
      && t.links[0] == l.(peer := l.peer.(work := {}, going := false),
                          outbox := [Plain(l, key, a), Plain(l, key, b), Plain(l, key, d)])
  {
    hide CentreOk, Agrees, Flat, ConfigOk, Protocol.Runs, Total;
    var cfg, w := Flat(size), s.links[0].peer.work;
    var s1, s2, more;
    events, s1, a, b, c := UnitDropped(size, s, g, centre, key);
    d := w - a - b - {c};
    more, s2 := UnitsRun(size, s1, g, centre, key);
    RunsOn(cfg, s, events, s1, more, s2);
    events := events + more;
    var l := s.links[0];
    assert {} + d == d;
    assert [Plain(l, key, a), Plain(l, key, b)] + [Plain(l, key, d)] == [Plain(l, key, a), Plain(l, key, b), Plain(l, key, d)];
    t := Writes(size, s2);
    events := Then(cfg, s, events, s2, SendDone(0), t);
  }

  /** From the state in which a list of at least six units has been handed out, over any table, there is a run to a standstill:
      the server waits for one unit, which it takes its peer to be busy with. */
  lemma ToStandstill(size: nat, s: System, g: Geometry, centre: seq<nat>, m: nat, key: nat)
    returns (events: seq<Event>, t: System)
    requires key != 0 && CentreOk(g, centre) && m < g.levels && Working(g, centre, m, key, s)
    requires |Entering(g, centre, m)| >= 6
    ensures ConfigOk(Flat(size)) && Protocol.Runs(Flat(size), s, events, t) && Stalled(t)
    ensures t.hub.search.geo == g && t.links.Keys == {0} && t.links[0].share == t.hub.search.remaining
    ensures |t.hub.search.remaining| == 1 && t.hub.search.remaining <= Entering(g, centre, m)
  {
    hide CentreOk, Entering, Agrees, Flat, ConfigOk, SkippedScan.Seen, Protocol.Runs, Total, Stalled;
    var cfg, w := Flat(size), Entering(g, centre, m);
    EnteringRange(g, centre, m);
    var s1, a, b, c, d;
    events, s1, a, b, d, c := AllButOne(size, s, g, centre, key);
    var heard, s2 := AllRead(size, s1, a, b, d, c);
    RunsOn(cfg, s, events, s1, heard, s2);
    events := events + heard;
    assert {} + (a + b + d) == a + b + d && w - (a + b + d) == {c};
    t := Syncs(size, s2, g, centre, m, w, c);
    events := Then(cfg, s, events, s2, Event.Start, t);
  }

  /** So there is one from a fresh task, over any table, wherever six units are to be handed out. */
  lemma SomeRunStalls(size: nat, g: Geometry, centre: seq<nat>, l: nat) returns (events: seq<Event>, s: System)
    requires Startable(Flat(size), g) && CentreOk(g, centre) && l < g.levels && centre != Zeros(|g.grid|)
    requires |Entering(g, centre, l)| >= 6
    ensures RunsFrom(Flat(size), g, events, s) && Stalled(s) && s.hub.search.geo == g
    ensures s.links.Keys == {0} && s.links[0].share == s.hub.search.remaining
  {
    hide GeoOk, CentreOk, Entering, Bootstrapping, Protocol.Runs, Protocol.Fresh, ConfigOk, Stalled, Working, AllEnded, Makeable;
    MakeableIs(size, g);
    var cfg := Flat(size);
    var a, s1 := JoinRuns(size, g);
    var b, s2 := ToLevel(size, s1, g, centre, l, 1);
    RunsOn(cfg, Protocol.Fresh(cfg, g), a, s1, b, s2);
    var c;
    c, s := ToStandstill(size, s2, g, centre, l, 2);
    RunsOn(cfg, Protocol.Fresh(cfg, g), a + b, s2, c, s);
    events := a + b + c;
  }

  // ----- What it takes -----

  /** Whoever is dealt work gets some, as the server deals it. */
  predicate DealsWork(e: Event) {
    match e
    case Report(_, deal) => forall i :: i in deal ==> deal[i] != {}
    case Finish(_, deal, _) => forall i :: i in deal ==> deal[i] != {}
    case _ => true
  }

  /** As long as no work is to be dealt, every peer has a share. */
  ghost predicate Busy(h: Hub, l: Link) {
    h.search.boot || h.search.redistribute || h.phase.Recentring? || h.phase.Converged? || l.share != {}
  }

  lemma ReportBusy(cfg: Config, s: System, i: nat, k: nat, deal: map<nat, set<nat>>)
    requires ConfigOk(cfg) && Enabled(cfg, s, Event.Report(k, deal)) && DealsWork(Event.Report(k, deal)) && i in s.links
    requires Busy(s.hub, s.links[i])
    ensures var t := Step(cfg, s, Event.Report(k, deal)); i in t.links && Busy(t.hub, t.links[i])
  {
    hide Ok, CanBoot, AfterBoot, OnPeerReport, Dealt, Stale, ConfigOk, Step;
    var h, r := s.hub, s.links[k].outbox[0];
    if r.key != h.key {
      Service.OldReport(cfg, s, k, deal);
    } else if CanBoot(h, r) {
      Service.FirstHears(cfg, s, k, deal);
      assert deal[i] != {};
    } else if r.Done? {
      Service.UnitsReported(cfg, s, k, deal);
    } else {
      assert Step(cfg, s, Event.Report(k, deal)) == s by { NotTaken(cfg, s, k, deal); }
    }
  }

  lemma NotTaken(cfg: Config, s: System, k: nat, deal: map<nat, set<nat>>)
    requires ConfigOk(cfg) && Enabled(cfg, s, Event.Report(k, deal)) && s.links[k].outbox[0].key == s.hub.key
    requires !CanBoot(s.hub, s.links[k].outbox[0]) && !s.links[k].outbox[0].Done?
    ensures Step(cfg, s, Event.Report(k, deal)) == s
  {
    hide CanBoot, AfterBoot, OnPeerReport, Dealt, Stale;
  }

  lemma StartBusy(cfg: Config, s: System, i: nat)
    requires ConfigOk(cfg) && Enabled(cfg, s, Event.Start) && i in s.links && Busy(s.hub, s.links[i])
    ensures var t := Step(cfg, s, Event.Start); i in t.links && Busy(t.hub, t.links[i])
  {
    hide Ok, ConfigOk, Step, Point, SitesOf;
    Service.SharesTaken(cfg, s);
    Service.SyncStarts(cfg, s);
    Service.SyncDealsAnew(cfg, s);
    var was := s.hub.search;
    if was.accumulated == {} {
      var t := Step(cfg, s, Event.Start);
      assert t.links[i].share == s.links[i].share;
    }
  }

  lemma FinishBusy(cfg: Config, s: System, i: nat, e: Event)
    requires ConfigOk(cfg) && Enabled(cfg, s, e) && e.Finish? && DealsWork(e) && i in s.links && Busy(s.hub, s.links[i])
    requires !s.hub.search.boot && (s.hub.phase.Advancing? || s.hub.phase.Recentring?)
    ensures var t := Step(cfg, s, e); i in t.links && Busy(t.hub, t.links[i])
  {
    hide Ok, ConfigOk, Step, Makeable, Narrower, Advanced;
    if Advanced(s.hub).level < s.hub.search.geo.levels {
      if s.hub.phase.Recentring? {
        Service.SyncRecentres(cfg, s, e.next, e.deal, e.assist);
      } else if s.hub.search.redistribute {
        Service.SyncDeals(cfg, s, e.next, e.deal, e.assist);
      } else {
        Service.SyncAssists(cfg, s, e.next, e.deal, e.assist);
      }
    } else {
      Service.SyncShrinks(cfg, s, e.next, e.deal, e.assist);
    }
  }

  lemma OwnBusy(cfg: Config, s: System, i: nat, e: Event)
    requires ConfigOk(cfg) && Enabled(cfg, s, e) && i in s.links && Busy(s.hub, s.links[i])
    requires !e.Report? && !e.Start? && !e.Finish?
    ensures var t := Step(cfg, s, e); i in t.links ==> Busy(t.hub, t.links[i])
  {
    hide CanProcess, CanBootstrap, Aim, Apply, LostNow, OverlookedNow, IsNext, Stands, Newcomer, Improves, Reports, GaggedAfter;
  }

  lemma StepBusy(cfg: Config, s: System, i: nat, e: Event)
    requires ConfigOk(cfg) && Enabled(cfg, s, e) && Safety.SystemInv(cfg, s) && DealsWork(e)
    requires i in s.links ==> Busy(s.hub, s.links[i])
    ensures var t := Step(cfg, s, e); i in t.links ==> Busy(t.hub, t.links[i])
  {
    hide Step, Enabled, Safety.LinkInv, Inv, Safety.SearchOk, Newcomer, ConfigOk;
    if i !in s.links {
      if i in Step(cfg, s, e).links {
        Accounts.OnlyJoins(cfg, s, i, e);
        Service.NewcomerHears(cfg, s, i, e.memory, e.host, e.sending);
      }
    } else if e.Report? {
      ReportBusy(cfg, s, i, e.i, e.deal);
    } else if e.Start? {
      StartBusy(cfg, s, i);
    } else if e.Finish? {
      assert s.hub.phase.Advancing? || s.hub.phase.Recentring? by { FinishPhase(cfg, s, e); }
      FinishBusy(cfg, s, i, e);
    } else {
      OwnBusy(cfg, s, i, e);
    }
  }

  lemma FinishPhase(cfg: Config, s: System, e: Event)
    requires Enabled(cfg, s, e) && e.Finish?
    ensures s.hub.phase.Advancing? || s.hub.phase.Recentring?
  {
    hide Ok, Makeable, Narrower, Advanced;
  }

  lemma {:induction false} BusyAlong(cfg: Config, s: System, i: nat, events: seq<Event>, t: System)
    requires ConfigOk(cfg) && Safety.SystemInv(cfg, s) && Protocol.Runs(cfg, s, events, t)
    requires (forall k :: 0 <= k < |events| ==> DealsWork(events[k])) && (i in s.links ==> Busy(s.hub, s.links[i]))
    ensures i in t.links ==> Busy(t.hub, t.links[i])
    decreases |events|
  {
    hide Safety.SystemInv, Step, Enabled, Busy, DealsWork;
    if events != [] {
      StepBusy(cfg, s, i, events[0]);
      StepKeepsInv(cfg, s, events[0]);
      BusyAlong(cfg, Step(cfg, s, events[0]), i, events[1..], t);
    }
  }

  /** A run in which work is dealt to all comes to a standstill only where every peer has dropped units: it has a share, and each
      unit of it is dropped. */
  lemma StalledMeansDropped(cfg: Config, g: Geometry, events: seq<Event>, s: System, i: nat)
    requires RunsFrom(cfg, g, events, s) && Stalled(s) && i in s.links && forall k :: 0 <= k < |events| ==> DealsWork(events[k])
    ensures s.links[i].share != {}
    ensures s.links[i].share <= Accounts.DroppedAlong(cfg, Protocol.Fresh(cfg, g), i, events, s, {})
  {
    hide Safety.SystemInv, Protocol.Runs, Accounts.DroppedAlong, Makeable, AllEnded, Ok, DealsWork;
    FreshInv(cfg, g);
    BusyAlong(cfg, Protocol.Fresh(cfg, g), i, events, s);
    hide Protocol.Fresh;
    Accounts.AtRestIsDone(cfg, g, events, s, i);
  }

  /** One coefficient with seven steps will do. */
  lemma SevenStepsStall() returns (events: seq<Event>, s: System)
    ensures RunsFrom(Flat(7), LostFind.GEO, events, s) && Stalled(s)
  {
    hide CentreOk, Entering, RunsFrom, Stalled, Made;
    LostFind.LevelIs();
    FlatOk(7);
    SixUnits();
    assert !LostFind.GEO.ended[0] && Zeros(1) == [0];
    events, s := SomeRunStalls(7, LostFind.GEO, [6], 0);
  }

  lemma SixUnits()
    ensures CentreOk(LostFind.GEO, [6]) && 0 < LostFind.GEO.levels && |Entering(LostFind.GEO, [6], 0)| == 6
  {
    hide GeoOk, CentreOk, Total, Site, CodeOf, LevelWork;
    LostFind.TotalIs();
    LostFind.FirstWorkIs(6, {6});
    assert SkippedScan.Seen(LostFind.GEO, [6], 0) == {6};
    assert Entering(LostFind.GEO, [6], 0) == FirstWork(LostFind.GEO, [6], {6});
    assert LostFind.All() - {6} == {0, 1, 2, 3, 4, 5};
  }
}
