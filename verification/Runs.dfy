/** The invariant holds in every state of every run, and what follows from it. */
module Runs {
  import opened Combos
  import opened Coefficients
  import opened Positions
  import opened Ranges
  import opened Sites
  import opened Views
  import opened Duplicates
  import opened Search
  import opened Protocol
  import opened Safety

  // ----- Steps of the peers and of their connections -----

  /** More has been evaluated, and more recorded. */
  lemma MoreSeen(h: Hub, x: Seen, lost: set<Loss>, overlooked: set<seq<nat>>)
    requires HubInv(h)
    ensures var h' := h.(evaluated := h.evaluated + x, lost := lost, overlooked := overlooked); HubInv(h') && Follows(h, h')
  {
    hide FineGrid, InRange, Inside, Point, CodeOf, Covered, Distinct, Site, Total, SkipsSafely, Made;
    var h' := h.(evaluated := h.evaluated + x, lost := lost, overlooked := overlooked);
    forall s | s in h.search.visited ensures Witnessed(h'.evaluated, h.search.geo, s) {
      assert Witnessed(h.evaluated, h.search.geo, s);
    }
  }

  lemma AllFollow(cfg: Config, h: Hub, h': Hub, links: map<nat, Link>)
    requires Follows(h, h') && forall i :: i in links ==> LinkInv(cfg, h, links[i])
    ensures forall i :: i in links ==> LinkInv(cfg, h', links[i])
  {
    hide LinkInv, Ok, Current, Known;
    forall i | i in links ensures LinkInv(cfg, h', links[i]) { LinkFollows(cfg, h, h', links[i]); }
  }

  lemma PeerStepKeepsInv(cfg: Config, s: System, e: Event)
    requires ConfigOk(cfg) && SystemInv(cfg, s) && Enabled(cfg, s, e)
    requires e.Leave? || e.WriteDone? || e.ReadMessage? || e.Evaluate? || e.TryPoint? || e.SendDone? || e.ReportDue? || e.Rest?
    ensures SystemInv(cfg, Step(cfg, s, e))
  {
    hide LinkInv, Follows, SearchOk, Ready, VisitedOk, Inv, Settled, Process, Bootstrap, Sent, Written, CanProcess, Stands,
         CanBootstrap, Apply, LostNow, OverlookedNow, Due, IsNext;
    if !s.hub.phase.Converged? {
      match e
      case Leave(i) =>
      case WriteDone(i) => WrittenKeeps(cfg, s.hub, s.links[i]);
      case ReadMessage(i) => ReadingKeeps(cfg, s.hub, s.links[i]);
      case Evaluate(i, c) =>
        var h := Step(cfg, s, e).hub;
        MoreSeen(s.hub, Computed(s.links[i].peer.view, Stands(s.links[i].peer, c).1), h.lost, h.overlooked);
        AllFollow(cfg, s.hub, h, s.links);
        ProcessKeeps(cfg, h, s.links[i], c);
      case TryPoint(i, point) =>
        var h := Step(cfg, s, e).hub;
        MoreSeen(s.hub, Computed(s.links[i].peer.view, point), h.lost, h.overlooked);
        AllFollow(cfg, s.hub, h, s.links);
        BootstrapKeeps(cfg, h, s.links[i], point);
      case SendDone(i) => SentKeeps(cfg, s.hub, s.links[i]);
      case ReportDue(i) => DueKeeps(cfg, s.hub, s.links[i]);
      case Rest(i) => RestKeeps(cfg, s.hub, s.links[i]);
    }
  }

  lemma JoinFollows(h: Hub)
    requires HubInv(h)
    ensures var h' := h.(search := h.search.(redistribute := true)); HubInv(h') && Follows(h, h')
  {
    hide CentreOk, Inside, Point, CodeOf, Covered, Distinct, Site, Total, SkipsSafely, Witnessed, Agrees, Made;
  }

  lemma JoinKeepsInv(cfg: Config, s: System, i: nat, memory: View, host: Host, sending: bool)
    requires ConfigOk(cfg) && SystemInv(cfg, s) && Enabled(cfg, s, Join(i, memory, host, sending))
    ensures SystemInv(cfg, Step(cfg, s, Join(i, memory, host, sending)))
  {
    hide LinkInv, Follows, SearchOk, Ready, VisitedOk, Inv, Settled, Newcomer;
    JoinFollows(s.hub);
    NewLink(cfg, s.hub, memory, host, sending);
    AllFollow(cfg, s.hub, s.hub.(search := s.hub.search.(redistribute := true)),
              s.links[i := Newcomer(cfg, s.hub, memory, host, sending)]);
  }

  // ----- Reports -----

  lemma TailOk(cfg: Config, h: Hub, l: Link)
    requires SearchOk(h) && LinkInv(cfg, h, l) && l.outbox != []
    ensures
      var r := l.outbox[0];
      && ReportOk(h, r) && LinkSafe(h, l.(outbox := l.outbox[1..], echo := r.key))
      && (r.key == h.key || !Stale(cfg, h, l) ==> LinkInv(cfg, h, l.(outbox := l.outbox[1..], echo := r.key)))
  {
    hide CentreOk, Inside, Known, Ok, Here, PeerOk, ReportOk, Along, Final, ShareOk;
    var r := l.outbox[0];
    assert ReportOk(h, r) && r.key <= l.peer.key;
    FinalHere(h, l.peer, l.inbox);
    assert r.key <= h.key by { ReportKey(h, r); }
    FinalKey(h, l.peer, l.inbox);
  }

  lemma ReportKey(h: Hub, r: Report)
    requires SearchOk(h) && ReportOk(h, r)
    ensures r.key <= h.key
  {
  }

  lemma FinalKey(h: Hub, p: Peer, inbox: seq<Message>)
    requires SearchOk(h) && Along(h, p, inbox)
    ensures p.key <= Final(p, inbox).key <= h.key
  {
    FinalHere(h, p, inbox);
  }

  /** The reported point is the new centre, and it has been evaluated. */
  lemma BootHub(cfg: Config, h: Hub, r: Report)
    requires HubInv(h) && h.phase.Idle? && ReportOk(h, r) && r.Found? && r.key == h.key
    ensures CanBoot(h, r) && HubInv(AfterBoot(h, r)) && Bumped(h, AfterBoot(h, r)) && !AfterBoot(h, r).search.boot
    ensures AfterBoot(h, r).search.geo == h.search.geo && AfterBoot(h, r).phase.Idle?
  {
    hide Inside, Point, Covered, Distinct, Site, Total, SkipsSafely, CodeOf, FineGrid, Upto, FirstWork;
    BootReportKeepsInv(h.search, r.point, r.value);
    assert BootCentre(h.search.geo, h.search.centre, r.point) == r.point;
    assert Witnessed(h.evaluated, h.search.geo, CodeOf(h.search.geo, r.point));
  }

  lemma DealtOk(h: Hub, share: set<nat>)
    requires SearchOk(h) && share <= h.search.remaining
    ensures ShareOk(h, share)
  {
    hide CentreOk, Site, Total;
  }

  lemma BootLinks(cfg: Config, h: Hub, h': Hub, links: map<nat, Link>, deal: map<nat, set<nat>>)
    requires HubInv(h') && Bumped(h, h') && forall i :: i in links ==> LinkInv(cfg, h, links[i])
    requires Dealt(h', links, deal)
    ensures SystemInv(cfg, System(h', SendAll(cfg, h', links, deal, FullOf(h', {}))))
  {
    hide LinkInv, SearchOk, Ready, VisitedOk, Inv, Settled, Send, Bumped, LinkSafe, CaughtUp, ShareOk;
    forall i | i in links
      ensures LinkInv(cfg, h', Send(cfg, h', links[i].(share := deal[i]), WithWork(FullOf(h', {}), deal[i])))
    {
      DealtOk(h', deal[i]);
      LinkBumped(cfg, h, h', links[i], deal[i]);
      SendFull(cfg, h', links[i].(share := deal[i]));
    }
  }

  /** Units reported with the current key were evaluated at the points they stand for at the server. */
  lemma UnitsEvaluated(h: Hub, r: Report)
    requires HubInv(h) && h.phase.Idle? && ReportOk(h, r) && r.Done? && r.key == h.key
    ensures !h.search.boot && Known(h.search, r.units)
    ensures forall c :: c in r.units ==>
              c < Total(h.search.geo) && (FrameOf(h.search.geo), Point(h.search.geo, h.search.centre, c)) in h.evaluated
  {
    hide Point, Total, Site, FineGrid, InRange, Span, Where, Inv, Made, VisitedOk;
    forall c | c in r.units
      ensures c < Total(h.search.geo) && (FrameOf(h.search.geo), Point(h.search.geo, h.search.centre, c)) in h.evaluated
    {
      SameWhere(h, r.view, c);
    }
  }

  lemma DoneHub(h: Hub, r: Report, idle: bool)
    requires HubInv(h) && h.phase.Idle? && ReportOk(h, r) && r.Done? && r.key == h.key
    ensures var h' := h.(search := OnPeerReport(h.search, r.value, r.find, r.units, idle));
            HubInv(h') && Follows(h, h') && !h.search.boot
  {
    hide Point, Inside, Total, CentreOk, Made, Inv, OnPeerReport, VisitedOk, Known, Settled;
    UnitsEvaluated(h, r);
    PeerReportKeepsInv(h.search, r.value, r.find, r.units, idle);
    InvOk(OnPeerReport(h.search, r.value, r.find, r.units, idle));
    DoneFollows(h, r, idle);
    DoneVisited(h, r, idle);
  }

  /** A report about units changes neither the list nor what has been visited. */
  lemma DoneFollows(h: Hub, r: Report, idle: bool)
    requires SearchOk(h) && r.Done? && Ok(OnPeerReport(h.search, r.value, r.find, r.units, idle))
    ensures Follows(h, h.(search := OnPeerReport(h.search, r.value, r.find, r.units, idle)))
  {
    hide Inside, Total, CentreOk, Site, Agrees;
  }

  lemma DoneVisited(h: Hub, r: Report, idle: bool)
    requires SearchOk(h) && VisitedOk(h) && r.Done? && Ok(OnPeerReport(h.search, r.value, r.find, r.units, idle))
    requires forall c :: c in r.units ==>
               c < Total(h.search.geo) && (FrameOf(h.search.geo), Point(h.search.geo, h.search.centre, c)) in h.evaluated
    ensures VisitedOk(h.(search := OnPeerReport(h.search, r.value, r.find, r.units, idle)))
  {
    hide Inside, Total, CentreOk, Point, Witnessed;
  }

  lemma LinkShare(cfg: Config, h: Hub, l: Link, share: set<nat>)
    requires SearchOk(h) && LinkInv(cfg, h, l) && (ShareOk(h, share) || share <= l.share)
    ensures LinkInv(cfg, h, l.(share := share))
  {
    hide CentreOk, Site, Here, PeerOk, ReportsOk, Along, Total;
  }

  /** Only a report of the current centre and table gets through. */
  lemma ReportKeepsInv(cfg: Config, s: System, i: nat, idle: bool, deal: map<nat, set<nat>>)
    requires ConfigOk(cfg) && SystemInv(cfg, s) && Enabled(cfg, s, Event.Report(i, deal))
    ensures SystemInv(cfg, ReadReport(cfg, s, i, idle, deal))
  {
    hide LinkInv, Follows, SearchOk, Ready, VisitedOk, Inv, Settled, Send, CanBoot, AfterBoot, Bumped, ReportOk, Stale,
         LinkSafe, OnPeerReport, SendAll;
    var h, was := s.hub, s.links[i];
    var r := was.outbox[0];
    var l := was.(outbox := was.outbox[1..], echo := r.key);
    TailOk(cfg, h, was);
    if r.key != h.key {
      if Stale(cfg, h, was) { SendFull(cfg, h, l); }
    } else if r.Found? {
      BootHub(cfg, h, r);
      BootLinks(cfg, h, AfterBoot(h, r), s.links[i := l], deal);
    } else {
      DoneHub(h, r, idle);
      NotBoot(h, r);
      LinkShare(cfg, h, l, l.share - r.units);
      AllFollow(cfg, h, h.(search := OnPeerReport(h.search, r.value, r.find, r.units, idle)),
                s.links[i := l.(share := l.share - r.units)]);
    }
  }

  lemma NotBoot(h: Hub, r: Report)
    requires r.Done?
    ensures !CanBoot(h, r)
  {
  }

  // ----- Syncs -----

  /** Shares are only ever taken from. */
  lemma LinksShared(cfg: Config, h: Hub, links: map<nat, Link>, taken: set<nat>)
    requires SearchOk(h) && forall i :: i in links ==> LinkInv(cfg, h, links[i])
    ensures forall i :: i in links ==> LinkInv(cfg, h, links[i].(share := links[i].share - taken))
  {
    hide LinkInv, SearchOk, ShareOk;
    forall i | i in links ensures LinkInv(cfg, h, links[i].(share := links[i].share - taken)) {
      LinkShare(cfg, h, links[i], links[i].share - taken);
    }
  }

  /** What is absorbed was evaluated, so its places are witnessed. */
  lemma AbsorbWitnessed(h: Hub, idle: bool)
    requires HubInv(h) && h.phase.Idle? && !h.search.boot
    ensures forall x :: x in Absorb(h.search, idle).visited ==> Witnessed(h.evaluated, h.search.geo, x)
  {
    hide Point, Covered, Distinct, Total, SkipsSafely, CodeOf, FineGrid, InRange, Upto, Witnessed, Inv;
    var s := h.search;
    forall c | c in s.accumulated ensures Witnessed(h.evaluated, s.geo, Site(s.geo, s.centre, c)) {
      PointIsCentreOk(s.geo, s.centre, c);
      WitnessedBy(h.evaluated, s.geo, Point(s.geo, s.centre, c));
    }
  }

  lemma WitnessedBy(seen: Seen, g: Geometry, p: seq<nat>)
    requires CentreOk(g, p) && (FrameOf(g), p) in seen
    ensures Witnessed(seen, g, CodeOf(g, p))
  {
  }

  lemma KnownAbsorb(s: State, idle: bool, units: set<nat>)
    requires Ok(s) && Known(s, units)
    ensures Known(Absorb(s, idle), units)
  {
    hide FineGrid, InRange, Total, Site, Point;
  }

  lemma StartHub(h: Hub, idle: bool)
    requires HubInv(h) && h.phase.Idle? && !h.search.boot
    ensures
      var a := Absorb(h.search, idle);
      && (a.best.None? ==>
            var h' := h.(search := a, phase := Advancing);
            HubInv(h') && Follows(h, h'))
      && (a.best.Some? ==>
            var r := Recentred(a);
            var h' := h.(search := r, msgEpoch := h.msgEpoch.(centre := r.centre),
                         phase := Recentring(h.search.centre, a.best.value));
            HubInv(h') && Follows(h, h'))
  {
    hide Point, Covered, Distinct, Total, SkipsSafely, CodeOf, FineGrid, InRange, Upto, Witnessed, Site, Absorb, FirstWork,
         Known;
    AbsorbSettles(h.search, idle);
    AbsorbWitnessed(h, idle);
    var a := Absorb(h.search, idle);
    if a.best.Some? {
      RecentredSettles(a);
    } else {
      forall units | Known(h.search, units) ensures Known(a, units) { KnownAbsorb(h.search, idle, units); }
    }
  }

  lemma StartKeepsInv(cfg: Config, s: System, idle: bool)
    requires ConfigOk(cfg) && SystemInv(cfg, s) && Enabled(cfg, s, Event.Start)
    ensures SystemInv(cfg, StartSync(s, idle))
  {
    hide LinkInv, Follows, SearchOk, Ready, VisitedOk, Inv, Settled, Absorb, Recentred;
    var h, a := s.hub, Absorb(s.hub.search, idle);
    StartHub(h, idle);
    var taken := if a.remaining == {} then {} else h.search.accumulated;
    LinksShared(cfg, h, s.links, taken);
    AllFollow(cfg, h, StartSync(s, idle).hub, StartSync(s, idle).links);
  }

  lemma SettledInv(s: State)
    requires Settled(s) && s.best.None? && s.remaining != {}
    ensures Inv(s.(redistribute := false))
  {
    hide Covered, Distinct, Total, SkipsSafely, CodeOf, FineGrid, InRange, Upto, Site;
  }

  lemma KnownAdvance(s: State, units: set<nat>)
    requires Settled(s) && Known(s, units) && Advance(s).level < s.geo.levels
    ensures Advance(s).geo == s.geo && Advance(s).centre == s.centre && Known(Advance(s), units)
  {
    hide Covered, Distinct, Total, SkipsSafely, CodeOf, FineGrid, InRange, Upto, Site, LevelWork;
    AdvanceSettles(s);
    AdvanceKeepsList(s);
  }

  lemma AdvanceKeepsList(s: State)
    requires Ok(s)
    ensures s.remaining != {} ==> Advance(s) == s
  {
    hide LevelWork;
  }

  /** The sync goes on: what it leaves is in order. */
  lemma AdvancedHub(h: Hub)
    requires HubInv(h) && (h.phase.Advancing? || h.phase.Recentring?) && Advanced(h).level < h.search.geo.levels
    ensures
      var done := h.(search := Advanced(h).(redistribute := false), phase := Idle);
      && (h.phase.Advancing? ==> HubInv(done) && Follows(h, done) && !done.search.boot)
      && (h.phase.Recentring? ==> HubInv(Completed(done)) && Bumped(h, Completed(done)) && !done.search.boot)
      && done.search.geo == h.search.geo && done.search.centre == h.search.centre && !h.search.boot
  {
    hide Covered, Distinct, Total, SkipsSafely, CodeOf, FineGrid, InRange, Upto, Site, Advance, Witnessed, Point, Known, Inv,
         Made, Agrees;
    var s := h.search;
    AdvanceSettles(s);
    AdvanceKeepsList(s);
    SettledInv(Advanced(h));
    var done := h.(search := Advanced(h).(redistribute := false), phase := Idle);
    if h.phase.Advancing? {
      forall units | Known(s, units) ensures Known(done.search, units) {
        KnownAdvance(s, units);
        KnownSame(Advanced(h), done.search, units);
      }
    }
  }

  lemma KnownSame(s: State, t: State, units: set<nat>)
    requires CentreOk(s.geo, s.centre) && t.geo == s.geo && t.centre == s.centre
    requires t.remaining == s.remaining && t.visited == s.visited && Known(s, units)
    ensures Known(t, units)
  {
  }

  /** Shrinking waits until the point of every complexity around the centre has been evaluated by some peer, with this
      very box and these resolutions. */
  lemma ShrinkMeansEvaluated(h: Hub, c: nat)
    requires HubInv(h) && (h.phase.Advancing? || h.phase.Recentring?)
    requires Advanced(h).level >= h.search.geo.levels
    requires c < Total(h.search.geo)
    ensures (FrameOf(h.search.geo), Point(h.search.geo, h.search.centre, c)) in h.evaluated
  {
    hide Covered, Distinct, SkipsSafely, CodeOf, FineGrid, Upto, Advance, Point, Known, Inv;
    var s := h.search;
    AdvanceSettles(s);
    AdvanceKeepsList(s);
    var x := Site(s.geo, s.centre, c);
    assert x in s.visited && Witnessed(h.evaluated, s.geo, x);
    var p :| CentreOk(s.geo, p) && CodeOf(s.geo, p) == x && (FrameOf(s.geo), p) in h.evaluated;
    PointIsCentreOk(s.geo, s.centre, c);
    SameSite(s.geo, p, Point(s.geo, s.centre, c));
  }

  lemma ShrunkHub(cfg: Config, h: Hub, next: Geometry)
    requires HubInv(h) && Makeable(h.size, next) && !AllEnded(next)
    ensures var h' := Completed(Narrowed(cfg, h, next)); HubInv(h') && Bumped(h, h') && h'.search.boot
  {
    hide Total, FineGrid, InRange, Upto, Points, Inv, Made;
    ShrunkInv(h.search, next, cfg.largish);
    ZerosOk(next);
    assert Ok(Shrunk(h.search, next, cfg.largish)) by { InvOk(Shrunk(h.search, next, cfg.largish)); }
  }

  lemma InvOk(s: State)
    requires Inv(s)
    ensures Ok(s)
  {
  }

  lemma ShrinkLinks(cfg: Config, h: Hub, h': Hub, links: map<nat, Link>)
    requires HubInv(h') && h'.search.boot && Bumped(h, h') && forall i :: i in links ==> LinkInv(cfg, h, links[i])
    ensures SystemInv(cfg, System(h', map i | i in links :: Send(cfg, h', links[i], FullOf(h', links[i].share))))
  {
    hide LinkInv, SearchOk, Ready, VisitedOk, Inv, Settled, Send, Bumped, LinkSafe, CaughtUp;
    forall i | i in links ensures LinkInv(cfg, h', Send(cfg, h', links[i], FullOf(h', links[i].share))) {
      LinkBumped(cfg, h, h', links[i], links[i].share);
      SendFull(cfg, h', links[i]);
    }
  }

  lemma CentreLinks(cfg: Config, h: Hub, h': Hub, links: map<nat, Link>, deal: map<nat, set<nat>>)
    requires HubInv(h) && HubInv(h') && h.phase.Recentring? && Bumped(h, h') && h'.phase.Idle?
    requires h'.search.geo == h.search.geo && h'.search.centre == h.search.centre && !h'.search.boot && !h.search.boot
    requires Dealt(h', links, deal) && forall i :: i in links ==> LinkInv(cfg, h, links[i])
    ensures SystemInv(cfg, System(h', SendAll(cfg, h', links, deal, Centre(h'.key, h.phase.complexity, h'.msgValue, {}))))
  {
    hide LinkInv, SearchOk, Ready, VisitedOk, Inv, Settled, Send, Bumped, ShareOk;
    forall i | i in links
      ensures LinkInv(cfg, h', Send(cfg, h', links[i].(share := deal[i]),
                                    WithWork(Centre(h'.key, h.phase.complexity, h'.msgValue, {}), deal[i])))
    {
      DealtOk(h', deal[i]);
      SendCentre(cfg, h, h', links[i], deal[i], h'.msgValue);
    }
  }

  lemma WorkLinks(cfg: Config, h: Hub, links: map<nat, Link>, deal: map<nat, set<nat>>)
    requires HubInv(h) && !h.search.boot && !h.phase.Converged? && Dealt(h, links, deal)
    requires forall i :: i in links ==> LinkInv(cfg, h, links[i])
    ensures SystemInv(cfg, System(h, SendAll(cfg, h, links, deal, Work({}, true))))
  {
    hide LinkInv, SearchOk, Ready, VisitedOk, Inv, Settled, Send, ShareOk;
    forall i | i in links ensures LinkInv(cfg, h, Send(cfg, h, links[i].(share := deal[i]), WithWork(Work({}, true), deal[i]))) {
      DealtOk(h, deal[i]);
      LinkShare(cfg, h, links[i], deal[i]);
      SendWork(cfg, h, links[i].(share := deal[i]), true);
    }
  }

  lemma AssistLinks(cfg: Config, h: Hub, links: map<nat, Link>, assist: set<nat>)
    requires HubInv(h) && !h.search.boot && !h.phase.Converged?
    requires forall i :: i in links ==> LinkInv(cfg, h, links[i])
    ensures SystemInv(cfg, System(h, map i | i in links ::
                                       if i in assist then Send(cfg, h, links[i], Work(links[i].share, false)) else links[i]))
  {
    hide LinkInv, SearchOk, Ready, VisitedOk, Inv, Settled, Send;
    forall i | i in links ensures LinkInv(cfg, h, Send(cfg, h, links[i], Work(links[i].share, false))) {
      SendWork(cfg, h, links[i], false);
    }
  }

  lemma FinishKeepsInv(cfg: Config, s: System, next: Geometry, deal: map<nat, set<nat>>, assist: set<nat>)
    requires ConfigOk(cfg) && SystemInv(cfg, s) && Enabled(cfg, s, Finish(next, deal, assist))
    ensures SystemInv(cfg, FinishSync(cfg, s, next, deal, assist))
  {
    hide LinkInv, SearchOk, Ready, VisitedOk, Inv, Settled, Send, SendAll, Bumped, Narrowed, Advanced, AllEnded, HubInv,
         Follows, Ok, GeoOk, Makeable;
    assert GeoOk(next) && 1 <= next.levels by { MakeableOk(s.hub.size, next); }
    var h := s.hub;
    if Advanced(h).level >= h.search.geo.levels {
      if !AllEnded(next) {
        ShrunkHub(cfg, h, next);
        ShrinkLinks(cfg, h, Completed(Narrowed(cfg, h, next)), s.links);
      }
    } else {
      AdvancedHub(h);
      var done := h.(search := Advanced(h).(redistribute := false), phase := Idle);
      if h.phase.Recentring? {
        CentreLinks(cfg, h, Completed(done), s.links, deal);
      } else {
        AllFollow(cfg, h, done, s.links);
        if h.search.redistribute {
          WorkLinks(cfg, done, s.links, deal);
        } else {
          AssistLinks(cfg, done, s.links, assist);
        }
      }
    }
  }

  lemma MakeableOk(size: nat, g: Geometry)
    requires Makeable(size, g)
    ensures GeoOk(g) && 1 <= g.levels
  {
  }

  // ----- Every run -----

  lemma StepKeepsInv(cfg: Config, s: System, e: Event)
    requires ConfigOk(cfg) && SystemInv(cfg, s) && Enabled(cfg, s, e)
    ensures SystemInv(cfg, Step(cfg, s, e))
  {
    hide SystemInv, ReadReport, StartSync, FinishSync;
    match e
    case Join(i, memory, host, sending) => JoinKeepsInv(cfg, s, i, memory, host, sending);
    case Report(i, deal) => ReportKeepsInv(cfg, s, i, ReportEmpties(s.links[i]), deal);
    case Start => StartKeepsInv(cfg, s, SyncEmpties(s));
    case Finish(next, deal, assist) => FinishKeepsInv(cfg, s, next, deal, assist);
    case _ => PeerStepKeepsInv(cfg, s, e);
  }

  lemma FreshInv(cfg: Config, g: Geometry)
    requires Startable(cfg, g)
    ensures GeoOk(g) && 1 <= g.levels && SystemInv(cfg, Protocol.Fresh(cfg, g))
  {
    hide Total, FineGrid, InRange, Upto, Points, Made;
    ZerosOk(g);
    ShrunkInv(Protocol.Fresh(cfg, g).hub.search, g, cfg.largish);
  }

  lemma {:induction false} RunKeepsInv(cfg: Config, s: System, events: seq<Event>, t: System)
    requires ConfigOk(cfg) && SystemInv(cfg, s) && Protocol.Runs(cfg, s, events, t)
    ensures SystemInv(cfg, t)
    decreases |events|
  {
    hide SystemInv, Step, Enabled;
    if events != [] {
      StepKeepsInv(cfg, s, events[0]);
      RunKeepsInv(cfg, Step(cfg, s, events[0]), events[1..], t);
    }
  }

  /** Nothing starts a server that has converged again. */
  lemma StaysConverged(cfg: Config, s: System, e: Event)
    requires ConfigOk(cfg) && Enabled(cfg, s, e) && s.hub.phase.Converged?
    ensures Step(cfg, s, e).hub.phase.Converged?
  {
    hide CanProcess, CanBootstrap, Apply, Process, Bootstrap, Sent, Written, Ok, LostNow, OverlookedNow, Stands, IsNext,
         Resting, Due, StartSync, FinishSync, ReadReport, Newcomer;
  }

  lemma RunsOne(cfg: Config, s: System, e: Event, t: System)
    requires ConfigOk(cfg) && Enabled(cfg, s, e) && Step(cfg, s, e) == t
    ensures Protocol.Runs(cfg, s, [e], t)
  {
    hide Enabled, Step;
    assert [e][1..] == [];
  }

  lemma AlsoRuns(cfg: Config, s: System, e: Event, next: System, events: seq<Event>, t: System)
    requires ConfigOk(cfg) && Enabled(cfg, s, e) && Step(cfg, s, e) == next && Protocol.Runs(cfg, next, events, t)
    ensures Protocol.Runs(cfg, s, [e] + events, t)
  {
    hide Enabled, Step;
    assert ([e] + events)[1..] == events;
  }

  lemma {:induction false} RunsOn(cfg: Config, s: System, first: seq<Event>, t: System, rest: seq<Event>, u: System)
    requires ConfigOk(cfg) && Protocol.Runs(cfg, s, first, t) && Protocol.Runs(cfg, t, rest, u)
    ensures Protocol.Runs(cfg, s, first + rest, u)
    decreases |first|
  {
    hide Enabled, Step;
    if first == [] {
      assert first + rest == rest;
    } else {
      assert (first + rest)[1..] == first[1..] + rest;
      RunsOn(cfg, Step(cfg, s, first[0]), first[1..], t, rest, u);
    }
  }

  /** A run of a fresh task. */
  ghost predicate RunsFrom(cfg: Config, g: Geometry, events: seq<Event>, s: System) {
    Startable(cfg, g) && Protocol.Runs(cfg, Protocol.Fresh(cfg, g), events, s)
  }

  lemma RunInv(cfg: Config, g: Geometry, events: seq<Event>, s: System)
    requires RunsFrom(cfg, g, events, s)
    ensures ConfigOk(cfg) && SystemInv(cfg, s)
  {
    hide Makeable, AllEnded, Protocol.Fresh, Protocol.Runs, SystemInv;
    FreshInv(cfg, g);
    RunKeepsInv(cfg, Protocol.Fresh(cfg, g), events, s);
  }

  /** Both tables take every complexity of the server's for the same point. */
  ghost predicate SamePlaces(g: Geometry, centre: seq<nat>, v: View)
    requires CentreOk(g, centre) && ViewOk(v)
  {
    forall c: nat :: c < Total(g) ==> SamePlace(g, centre, v, c)
  }

  ghost predicate SamePlace(g: Geometry, centre: seq<nat>, v: View, c: nat)
    requires CentreOk(g, centre) && ViewOk(v) && c < Total(g)
  {
    c < Span(v) && Where(v, c) == Point(g, centre, c)
  }

  lemma CurrentWhere(h: Hub, v: View)
    requires SearchOk(h) && Current(h, v) && v.centre == h.search.centre
    ensures ViewOk(v) && SamePlaces(h.search.geo, h.search.centre, v)
  {
    hide Total, Span, Where, Point, FineGrid, InRange;
    forall c: nat | c < Total(h.search.geo) ensures SamePlace(h.search.geo, h.search.centre, v, c) {
      SameWhere(h, v, c);
    }
  }

  /** Epoch safety: in every state of every run of a fresh task, a report that carries the server's key, read while no
      sync is under way, was computed in the server's mode with exactly the server's centre and frame, by a table that the
      peer has built itself and that takes each of the report's units for the same point as the server's; these points have
      been evaluated; and the server acts on the report. */
  lemma AcceptedIsCurrent(cfg: Config, g: Geometry, events: seq<Event>, s: System, i: nat, k: nat)
    requires RunsFrom(cfg, g, events, s) && s.hub.phase.Idle?
    requires i in s.links && k < |s.links[i].outbox| && s.links[i].outbox[k].key == s.hub.key
    ensures
      var r, h := s.links[i].outbox[k], s.hub;
      && EpochOf(r.view) == Epoch(FrameOf(h.search.geo), h.search.centre, h.search.boot)
      && ViewOk(r.view) && CentreOk(h.search.geo, h.search.centre) && SamePlaces(h.search.geo, h.search.centre, r.view)
      && (h.search.boot <==> r.Found?)
      && (r.Found? ==> CanBoot(h, r) && (r.view.frame, r.point) in h.evaluated)
      && (r.Done? ==> Known(h.search, r.units) && Evaluated(h.evaluated, r.view, r.units))
  {
    hide Total, FineGrid, InRange, Upto, Points, RunsFrom, Settled, Known, Point, Along, PeerOk, Where, Span, Made, CanBoot,
         SamePlaces;
    RunInv(cfg, g, events, s);
    var h, r := s.hub, s.links[i].outbox[k];
    assert ReportOk(h, r);
    assert r.view.centre == h.search.centre;
    CurrentWhere(h, r.view);
    if r.Found? { BootHub(cfg, h, r); }
  }

  /** Coverage, end to end: whenever a run of a fresh task comes to shrink the box, each point the complexities around the
      centre stand for has been evaluated by a peer, in this frame. */
  lemma NothingSkipped(cfg: Config, g: Geometry, events: seq<Event>, s: System, c: nat)
    requires RunsFrom(cfg, g, events, s)
    requires (s.hub.phase.Advancing? || s.hub.phase.Recentring?) && Ok(s.hub.search)
    requires Advanced(s.hub).level >= s.hub.search.geo.levels && c < Total(s.hub.search.geo)
    ensures (FrameOf(s.hub.search.geo), Point(s.hub.search.geo, s.hub.search.centre, c)) in s.hub.evaluated
  {
    hide Total, FineGrid, InRange, Upto, Points, RunsFrom, Advanced, HubInv, LinkInv, Ok, Point;
    RunInv(cfg, g, events, s);
    ShrinkMeansEvaluated(s.hub, c);
  }

  /** No duplicate work: where the scans that are skipped are safe to skip, the list of every state in which work is handed
      out names no place twice, and none that has been visited. */
  lemma NoWorkTwice(cfg: Config, g: Geometry, events: seq<Event>, s: System)
    requires RunsFrom(cfg, g, events, s) && s.hub.phase.Idle? && !s.hub.search.boot
    requires GeoOk(s.hub.search.geo) && SkipsSafely(s.hub.search.geo)
    ensures CentreOk(s.hub.search.geo, s.hub.search.centre) && Inside(s.hub.search.geo, s.hub.search.remaining)
    ensures Clean(s.hub.search)
  {
    hide Total, InRange, Upto, Points, RunsFrom, LinkInv, Settled, Point, Distinct;
    RunInv(cfg, g, events, s);
  }

  /** So where resolutions do not grow from level to level. */
  lemma NoWorkTwiceNonIncreasing(cfg: Config, g: Geometry, events: seq<Event>, s: System)
    requires RunsFrom(cfg, g, events, s) && s.hub.phase.Idle? && !s.hub.search.boot
    requires GeoOk(s.hub.search.geo)
    requires forall j, l, m :: 0 <= j < |s.hub.search.geo.grid| && 0 <= l <= m < s.hub.search.geo.levels ==>
               Res(s.hub.search.geo.grid, j, m) <= Res(s.hub.search.geo.grid, j, l)
    ensures CentreOk(s.hub.search.geo, s.hub.search.centre) && Inside(s.hub.search.geo, s.hub.search.remaining)
    ensures Clean(s.hub.search)
  {
    hide RunsFrom, SkipsSafely, CentreOk, Clean;
    NonIncreasingIsSafe(s.hub.search.geo);
    NoWorkTwice(cfg, g, events, s);
  }

  /** The check for a key that has come round never removes a peer: at a sync under a new key every echo is older. */
  lemma NeverWrapped(cfg: Config, g: Geometry, events: seq<Event>, s: System, i: nat)
    requires RunsFrom(cfg, g, events, s) && !s.hub.phase.Converged? && i in s.links
    ensures s.links[i].echo < Completed(s.hub).key
  {
    hide Total, FineGrid, InRange, Upto, Points, RunsFrom, Along, PeerOk, ReportsOk, Inv, Settled, VisitedOk;
    RunInv(cfg, g, events, s);
    assert LinkInv(cfg, s.hub, s.links[i]);
  }
}
