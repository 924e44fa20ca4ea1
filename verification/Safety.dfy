/** What every run of the protocol keeps: reports the server accepts belong to its current centre and table, and
    nothing counts as visited that no peer has evaluated. */
module Safety {
  import opened Combos
  import opened Coefficients
  import opened Positions
  import opened Ranges
  import opened Sites
  import opened Views
  import opened Duplicates
  import opened Search
  import opened Protocol

  /** Every unit stands for a point that has been evaluated. */
  ghost predicate Evaluated(seen: Seen, v: View, units: set<nat>)
    requires ViewOk(v)
  {
    Covers(v, units) && forall c :: c in units ==> (v.frame, Where(v, c)) in seen
  }

  /** What a peer with the current key can be computing with. While the server recentres, the key is still the old one
      but a newcomer may already have been told the new centre. */
  ghost predicate Current(h: Hub, v: View) {
    && Agrees(v, h.search.geo) && v.boot == h.search.boot
    && (v.centre == h.search.centre || (h.phase.Recentring? && v.centre == h.phase.from))
  }

  ghost predicate SearchOk(h: Hub) { Ok(h.search) }

  ghost predicate KnownHere(h: Hub, units: set<nat>)
    requires SearchOk(h)
  {
    Handing(h) ==> Known(h.search, units)
  }

  // ----- Peers, messages, reports -----

  /** A state a peer is in, or will be in once it has read part of its inbox. */
  ghost predicate Here(h: Hub, p: Peer)
    requires SearchOk(h)
  {
    && p.key <= h.key && p.host.size == h.size
    && (p.key != 0 ==>
          && ViewOk(p.view)
          && (!p.view.boot ==> Covers(p.view, p.work) && (p.view.frame, p.view.centre) in h.evaluated))
    && (p.key == h.key ==> Current(h, p.view) && KnownHere(h, p.work))
  }

  ghost predicate Along(h: Hub, p: Peer, inbox: seq<Message>)
    requires SearchOk(h)
    decreases |inbox|
  {
    && Here(h, p)
    && (inbox != [] ==>
          && CanApply(p, inbox[0]) && p.key <= Apply(p, inbox[0]).key
          && Along(h, Apply(p, inbox[0]), inbox[1..]))
  }

  ghost function Final(p: Peer, inbox: seq<Message>): Peer
    decreases |inbox|
  {
    if inbox == [] then p else Final(Apply(p, inbox[0]), inbox[1..])
  }

  ghost predicate ReportOk(h: Hub, r: Report)
    requires SearchOk(h)
  {
    && r.key <= h.key && ViewOk(r.view) && (r.key == h.key ==> Current(h, r.view))
    && match r
       case Found(key, view, point, value) =>
         view.boot && PointOk(view.frame, point) && (view.frame, point) in h.evaluated
       case Done(key, view, value, find, units) =>
         && !view.boot && Evaluated(h.evaluated, view, units)
         && (find.Some? ==> find.value in units)
         && (key == h.key ==> KnownHere(h, units))
  }

  ghost predicate PeerOk(h: Hub, p: Peer)
    requires SearchOk(h) && Here(h, p)
  {
    && (p.unreported != {} ==>
          && p.key != 0 && !p.view.boot && Evaluated(h.evaluated, p.view, p.unreported)
          && (p.key == h.key ==> KnownHere(h, p.unreported)))
    && (p.draft.Some? ==> ReportOk(h, p.draft.value) && p.draft.value.key == p.key)
  }

  ghost predicate ReportsOk(h: Hub, outbox: seq<Report>, key: nat)
    requires SearchOk(h)
  {
    forall k :: 0 <= k < |outbox| ==> ReportOk(h, outbox[k]) && outbox[k].key <= key
  }

  ghost predicate ShareOk(h: Hub, share: set<nat>)
    requires SearchOk(h)
  {
    !h.search.boot ==> Inside(h.search.geo, share) && KnownHere(h, share)
  }

  ghost predicate LinkSafe(h: Hub, l: Link)
    requires SearchOk(h)
  {
    && Along(h, l.peer, l.inbox) && PeerOk(h, l.peer) && ReportsOk(h, l.outbox, l.peer.key)
    && ShareOk(h, l.share) && l.echo <= h.key && (l.peer.draft.Some? ==> l.sending)
  }

  /** Either the last message on its way carries key `k`, or the server will notice: a write is pending whose completion
      triggers the whole state, or the peer counts as stale. */
  ghost predicate CaughtUp(cfg: Config, h: Hub, l: Link, k: nat) {
    Final(l.peer, l.inbox).key == k || (l.writing && l.late) || Stale(cfg, h, l)
  }

  ghost predicate LinkInv(cfg: Config, h: Hub, l: Link)
    requires SearchOk(h)
  {
    LinkSafe(h, l) && CaughtUp(cfg, h, l, h.key)
  }

  // ----- The server -----

  /** Every visited place belongs to a point that was evaluated. */
  ghost predicate Witnessed(seen: Seen, g: Geometry, site: nat)
    requires GeoOk(g)
  {
    exists p :: CentreOk(g, p) && CodeOf(g, p) == site && (FrameOf(g), p) in seen
  }

  ghost predicate VisitedOk(h: Hub)
    requires SearchOk(h)
  {
    && (forall x :: x in h.search.visited ==> Witnessed(h.evaluated, h.search.geo, x))
    && forall c :: c in h.search.accumulated ==>
                     c < Total(h.search.geo) && (FrameOf(h.search.geo), Point(h.search.geo, h.search.centre, c)) in h.evaluated
  }

  ghost predicate Ready(h: Hub)
    requires SearchOk(h)
  {
    && (!h.search.boot ==> (FrameOf(h.search.geo), h.search.centre) in h.evaluated)
    && h.key >= 1 && h.msgKey == h.key && h.msgEpoch == Epoch(FrameOf(h.search.geo), h.search.centre, h.search.boot)
    && (exists intended :: Made(h.search.geo, h.size, intended))
    && (h.phase.Recentring? ==>
          && CentreOk(h.search.geo, h.phase.from) && h.phase.complexity < Total(h.search.geo)
          && h.search.centre == Point(h.search.geo, h.phase.from, h.phase.complexity))
  }

  ghost predicate HubInv(h: Hub) {
    && SearchOk(h) && Ready(h) && VisitedOk(h)
    && (exists j :: 0 <= j < |h.search.geo.ended| && !h.search.geo.ended[j])
    && (h.phase.Idle? ==> Inv(h.search))
    && (!h.phase.Idle? ==> Settled(h.search) && h.search.best.None?)
  }

  ghost predicate SystemInv(cfg: Config, s: System) {
    !s.hub.phase.Converged? ==> HubInv(s.hub) && forall i :: i in s.links ==> LinkInv(cfg, s.hub, s.links[i])
  }

  // ----- Inboxes -----

  lemma {:induction false} FinalHere(h: Hub, p: Peer, inbox: seq<Message>)
    requires SearchOk(h) && Along(h, p, inbox)
    ensures Here(h, Final(p, inbox)) && p.key <= Final(p, inbox).key
    decreases |inbox|
  {
    hide Here, SearchOk;
    if inbox != [] { FinalHere(h, Apply(p, inbox[0]), inbox[1..]); }
  }

  lemma {:induction false} Deliver(h: Hub, p: Peer, inbox: seq<Message>, m: Message)
    requires SearchOk(h) && Along(h, p, inbox)
    requires var q := Final(p, inbox); CanApply(q, m) && q.key <= Apply(q, m).key && Here(h, Apply(q, m))
    ensures Along(h, p, inbox + [m]) && Final(p, inbox + [m]) == Apply(Final(p, inbox), m)
    decreases |inbox|
  {
    hide Here, SearchOk, Apply, CanApply;
    if inbox == [] {
      assert [m][1..] == [];
      assert inbox + [m] == [m];
    } else {
      assert (inbox + [m])[1..] == inbox[1..] + [m];
      Deliver(h, Apply(p, inbox[0]), inbox[1..], m);
    }
  }

  /** Any change of the server that leaves single states in order leaves inboxes in order. */
  lemma {:induction false} AlongKeeps(h: Hub, h': Hub, p: Peer, inbox: seq<Message>)
    requires SearchOk(h) && SearchOk(h') && Along(h, p, inbox)
    requires forall q {:trigger Here(h', q)} :: Here(h, q) ==> Here(h', q)
    ensures Along(h', p, inbox)
    decreases |inbox|
  {
    hide Here, SearchOk, Apply, CanApply;
    if inbox != [] { AlongKeeps(h, h', Apply(p, inbox[0]), inbox[1..]); }
  }

  // ----- What a change of the server does to a link -----

  /** A change under the same key. */
  ghost predicate Follows(h: Hub, h': Hub) {
    && SearchOk(h) && SearchOk(h') && h'.key == h.key && h.evaluated <= h'.evaluated && h'.size == h.size
    && h'.search.geo == h.search.geo && h'.search.boot == h.search.boot
    && (forall v :: Current(h, v) ==> Current(h', v))
    && (Handing(h') ==> Handing(h) && forall units :: Known(h.search, units) ==> Known(h'.search, units))
  }

  lemma HereFollows(h: Hub, h': Hub, p: Peer)
    requires Follows(h, h') && Here(h, p)
    ensures Here(h', p)
  {
    hide ViewOk, Inside, Known, Ok, Current;
  }

  lemma ReportFollows(h: Hub, h': Hub, r: Report)
    requires Follows(h, h') && ReportOk(h, r)
    ensures ReportOk(h', r)
  {
    hide CentreOk, Inside, Known, Ok, Current, Point;
  }

  lemma PeerFollows(h: Hub, h': Hub, p: Peer)
    requires Follows(h, h') && Here(h, p) && Here(h', p) && PeerOk(h, p)
    ensures PeerOk(h', p)
  {
    hide CentreOk, Inside, Known, Ok, Current, Point, ReportOk, Here;
    if p.draft.Some? { ReportFollows(h, h', p.draft.value); }
  }

  lemma LinkFollows(cfg: Config, h: Hub, h': Hub, l: Link)
    requires Follows(h, h') && LinkInv(cfg, h, l)
    ensures LinkInv(cfg, h', l)
  {
    hide CentreOk, Inside, Known, Ok, Current, Point, Here, PeerOk, ReportOk;
    forall q {:trigger Here(h', q)} | Here(h, q) ensures Here(h', q) { HereFollows(h, h', q); }
    AlongKeeps(h, h', l.peer, l.inbox);
    PeerFollows(h, h', l.peer);
    forall k | 0 <= k < |l.outbox| ensures ReportOk(h', l.outbox[k]) { ReportFollows(h, h', l.outbox[k]); }
  }

  /** The next key. */
  ghost predicate Bumped(h: Hub, h': Hub) {
    SearchOk(h) && SearchOk(h') && h'.key == h.key + 1 && h.evaluated <= h'.evaluated && h'.size == h.size
  }

  lemma LinkBumped(cfg: Config, h: Hub, h': Hub, l: Link, share: set<nat>)
    requires Bumped(h, h') && LinkInv(cfg, h, l) && ShareOk(h', share)
    ensures LinkSafe(h', l.(share := share)) && CaughtUp(cfg, h', l, h.key)
  {
    hide CentreOk, Inside, Known, Ok, Current, Point, PeerOk, ReportOk, Here;
    forall q {:trigger Here(h', q)} | Here(h, q) ensures Here(h', q) { HereBumped(h, h', q); }
    AlongKeeps(h, h', l.peer, l.inbox);
    PeerBumped(h, h', l.peer);
    forall k | 0 <= k < |l.outbox| ensures ReportOk(h', l.outbox[k]) { ReportBumped(h, h', l.outbox[k]); }
  }

  lemma HereBumped(h: Hub, h': Hub, p: Peer)
    requires Bumped(h, h') && Here(h, p)
    ensures Here(h', p)
  {
    hide ViewOk, Inside, Known, Ok, Current;
  }

  lemma ReportBumped(h: Hub, h': Hub, r: Report)
    requires Bumped(h, h') && ReportOk(h, r)
    ensures ReportOk(h', r)
  {
    hide CentreOk, Inside, Known, Ok, Current, Point;
  }

  lemma PeerBumped(h: Hub, h': Hub, p: Peer)
    requires Bumped(h, h') && Here(h, p) && Here(h', p) && PeerOk(h, p)
    ensures PeerOk(h', p)
  {
    hide CentreOk, Inside, Known, Ok, Current, Point, ReportOk;
    if p.draft.Some? { ReportBumped(h, h', p.draft.value); }
  }

  // ----- What a sync does to a link -----

  /** The whole state always fits. */
  lemma SendFull(cfg: Config, h: Hub, l: Link)
    requires SearchOk(h) && Ready(h) && LinkSafe(h, l)
    ensures LinkInv(cfg, h, Send(cfg, h, l, FullOf(h, l.share)))
  {
    hide CentreOk, Inside, Known, PeerOk, ReportsOk, Along, Final;
    FinalHere(h, l.peer, l.inbox);
    FullHere(h, Final(l.peer, l.inbox), l.share);
    Deliver(h, l.peer, l.inbox, FullOf(h, l.share));
    AlongHere(h, l.peer, l.inbox);
  }

  /** A peer that reads the whole state agrees with the server, whatever its build reads. */
  lemma FullHere(h: Hub, p: Peer, share: set<nat>)
    requires SearchOk(h) && Ready(h) && Here(h, p) && ShareOk(h, share)
    ensures Here(h, Apply(p, FullOf(h, share)))
  {
    hide Known, ViewOf, ViewOk, Covers, Inside, Ok, Made, Agrees;
    if p.key == h.key {
      ShareCovered(h, p.view, share);
    } else {
      FullView(h, p.host);
      ShareCovered(h, ViewOf(p.host, h.key, h.msgEpoch), share);
    }
  }

  lemma FullView(h: Hub, host: Host)
    requires SearchOk(h) && Ready(h) && host.size == h.size
    ensures
      var v := ViewOf(host, h.key, h.msgEpoch);
      && Current(h, v) && (v.frame, v.centre, v.boot) == (FrameOf(h.search.geo), h.search.centre, h.search.boot)
  {
    var s := h.search;
    var intended :| Made(s.geo, h.size, intended);
    hide Made, Built, ViewOf, Agrees;
    ViewAgrees(host, h.key, s.geo, intended, s.centre, s.boot);
  }

  /** Whoever agrees with the server can place every unit it hands out. */
  lemma ShareCovered(h: Hub, v: View, share: set<nat>)
    requires SearchOk(h) && Current(h, v) && ShareOk(h, share)
    ensures ViewOk(v) && (!v.boot ==> Covers(v, share))
  {
    hide Known, ViewOk, Span, Total;
    AgreesTotal(v, h.search.geo);
  }

  lemma AlongHere(h: Hub, p: Peer, inbox: seq<Message>)
    requires SearchOk(h) && Along(h, p, inbox)
    ensures Here(h, p)
  {
  }

  /** A new list fits whoever has the current key. */
  lemma SendWork(cfg: Config, h: Hub, l: Link, reply: bool)
    requires SearchOk(h) && Ready(h) && !h.search.boot && LinkInv(cfg, h, l)
    ensures LinkInv(cfg, h, Send(cfg, h, l, Work(l.share, reply)))
  {
    hide CentreOk, Inside, Known, PeerOk, ReportsOk, Along, Final;
    FinalHere(h, l.peer, l.inbox);
    if !l.writing && !Stale(cfg, h, l) {
      WorkHere(h, Final(l.peer, l.inbox), l.share, reply);
      Deliver(h, l.peer, l.inbox, Work(l.share, reply));
    }
  }

  lemma WorkHere(h: Hub, p: Peer, share: set<nat>, reply: bool)
    requires SearchOk(h) && Ready(h) && Here(h, p) && ShareOk(h, share) && p.key == h.key && !h.search.boot
    ensures Here(h, Apply(p, Work(share, reply)))
  {
    hide Known, Span, Agrees, Total;
    AgreesTotal(p.view, h.search.geo);
  }

  /** The recentring message fits: whoever has the old key stands at the old centre, or at the new one already. */
  lemma SendCentre(cfg: Config, h: Hub, h': Hub, l: Link, share: set<nat>, value: real)
    requires Bumped(h, h') && LinkInv(cfg, h, l) && ShareOk(h', share) && Ready(h) && Ready(h') && h.phase.Recentring?
    requires h'.search.geo == h.search.geo && h'.search.centre == h.search.centre
    requires !h.search.boot && !h'.search.boot && !h'.phase.Recentring?
    ensures LinkInv(cfg, h', Send(cfg, h', l.(share := share), Centre(h'.key, h.phase.complexity, value, share)))
  {
    hide CentreOk, Inside, Known, PeerOk, ReportsOk, Along, Final, Point;
    LinkBumped(cfg, h, h', l, share);
    FinalHere(h, l.peer, l.inbox);
    FinalHere(h', l.peer, l.inbox);
    if !l.writing && !Stale(cfg, h', l) {
      var q := Final(l.peer, l.inbox);
      CentreHere(h, h', q, share, value);
      Deliver(h', l.peer, l.inbox, Centre(h'.key, h.phase.complexity, value, share));
    }
  }

  lemma CentreHere(h: Hub, h': Hub, q: Peer, share: set<nat>, value: real)
    requires Bumped(h, h') && Here(h, q) && q.key == h.key && ShareOk(h', share) && Ready(h) && Ready(h') && h.phase.Recentring?
    requires h'.search.geo == h.search.geo && h'.search.centre == h.search.centre
    requires !h.search.boot && !h'.search.boot && !h'.phase.Recentring?
    ensures
      var m := Centre(h'.key, h.phase.complexity, value, share);
      CanApply(q, m) && Apply(q, m).key == h'.key && Here(h', Apply(q, m))
  {
    hide Known, Point, Total, Where, Span, CentreOk;
    var s := h.search;
    RecentreTwice(s.geo, h.phase.from, h.phase.complexity);
    SameWhere(h, q.view, h.phase.complexity);
    AgreesTotal(q.view, s.geo);
    assert Where(q.view, h.phase.complexity) == s.centre;
    CentredView(q.view, s.geo, s.centre);
  }

  lemma CentredView(v: View, g: Geometry, centre: seq<nat>)
    requires Agrees(v, g) && CentreOk(g, centre)
    ensures var w := v.(centre := centre); Agrees(w, g) && Span(w) == Span(v)
  {
  }

  // ----- What a peer's own steps do to a link -----

  lemma {:induction false} AlongSame(h: Hub, p: Peer, q: Peer, inbox: seq<Message>)
    requires SearchOk(h) && Along(h, p, inbox) && Here(h, q) && q.key == p.key && q.view == p.view && q.host == p.host
    ensures Along(h, q, inbox) && Final(q, inbox).key == Final(p, inbox).key
    decreases |inbox|
  {
    hide Here, Apply, CanApply, Ok;
    if inbox != [] {
      var a, b := Apply(p, inbox[0]), Apply(q, inbox[0]);
      AlongHere(h, a, inbox[1..]);
      SameApplied(h, p, q, inbox[0]);
      AlongSame(h, a, b, inbox[1..]);
    }
  }

  lemma SameApplied(h: Hub, p: Peer, q: Peer, m: Message)
    requires SearchOk(h) && CanApply(p, m) && Here(h, Apply(p, m)) && q.key == p.key && q.view == p.view && q.host == p.host
    ensures CanApply(q, m) && Here(h, Apply(q, m))
    ensures var a, b := Apply(p, m), Apply(q, m); b.key == a.key && b.view == a.view && b.host == a.host
  {
    hide KnownHere, Current, Ok, ViewOf, ViewOk, Covers, Span, Where;
    assert Apply(q, m).work == Apply(p, m).work;
  }

  lemma PeerSteps(cfg: Config, h: Hub, l: Link, q: Peer, outbox: seq<Report>, sending: bool)
    requires SearchOk(h) && LinkInv(cfg, h, l) && q.key == l.peer.key && q.view == l.peer.view && q.host == l.peer.host
    requires Here(h, q) && PeerOk(h, q) && ReportsOk(h, outbox, q.key) && (q.draft.Some? ==> sending)
    ensures LinkInv(cfg, h, l.(peer := q, outbox := outbox, sending := sending))
  {
    hide CentreOk, Inside, Known, Here, PeerOk, ReportOk, ReportsOk, Along, Final, Ok;
    AlongSame(h, l.peer, q, l.inbox);
  }

  lemma ReadingKeeps(cfg: Config, h: Hub, l: Link)
    requires SearchOk(h) && LinkInv(cfg, h, l) && l.inbox != []
    ensures LinkInv(cfg, h, l.(peer := Apply(l.peer, l.inbox[0]), inbox := l.inbox[1..]))
  {
    hide Apply, CanApply, Here, PeerOk, ReportOk, Known, Ok;
    AlongHere(h, Apply(l.peer, l.inbox[0]), l.inbox[1..]);
    PeerApplies(h, l.peer, l.inbox[0]);
  }

  lemma PeerApplies(h: Hub, p: Peer, m: Message)
    requires SearchOk(h) && Here(h, p) && PeerOk(h, p) && Here(h, Apply(p, m)) && CanApply(p, m)
    ensures PeerOk(h, Apply(p, m)) && (Apply(p, m).draft.Some? ==> p.draft.Some?)
  {
    hide CentreOk, Inside, Known, ReportOk, Point, Ok, ViewOf, Evaluated, Here, Where, Span;
  }

  /** A unit that the server knows stands at the peer for the same point. */
  lemma SameWhere(h: Hub, v: View, c: nat)
    requires SearchOk(h) && Current(h, v) && CentreOk(h.search.geo, v.centre) && c < Total(h.search.geo)
    ensures c < Span(v) && Where(v, c) == Point(h.search.geo, v.centre, c)
  {
    hide CentreOk, Total, Point, Where, Span;
    AgreesPoint(v, h.search.geo, c);
  }

  /** A report of what the peer has done with its current key is in order. */
  lemma ProcessedOk(cfg: Config, h: Hub, p: Peer, c: nat)
    requires ConfigOk(cfg) && SearchOk(h) && Here(h, p) && PeerOk(h, p) && CanProcess(p, c)
    requires Computed(p.view, Stands(p, c).1) <= h.evaluated
    ensures
      var q := Processed(cfg, p, c);
      Here(h, q) && PeerOk(h, q) && ReportOk(h, DoneReport(cfg, p, c))
  {
    hide CentreOk, Point, Ok, Improves, Site, Where, Span, ViewOk, Agrees, Total;
    var q := Processed(cfg, p, c);
    assert Evaluated(h.evaluated, p.view, q.unreported);
    assert p.key == h.key ==> KnownHere(h, q.unreported);
  }

  /** Reporting, at once or with a draft. */
  lemma ReportingKeeps(cfg: Config, h: Hub, l: Link, q: Peer, r: Report)
    requires SearchOk(h) && LinkInv(cfg, h, l) && q.key == l.peer.key && q.view == l.peer.view && q.host == l.peer.host
    requires Here(h, q) && PeerOk(h, q) && ReportOk(h, r) && r.key == q.key && (q.draft.Some? ==> l.sending)
    ensures LinkInv(cfg, h, Reporting(l, q, r))
  {
    hide CentreOk, Inside, Known, ReportOk, Along, Final, Ok, Evaluated, Current;
    if l.sending {
      PeerSteps(cfg, h, l, q.(draft := Some(r)), l.outbox, true);
    } else {
      PeerSteps(cfg, h, l, q.(unreported := {}), l.outbox + [r], true);
    }
  }

  lemma FlagsKeep(h: Hub, p: Peer, due: bool, going: bool, gagged: bool)
    requires SearchOk(h) && Here(h, p) && PeerOk(h, p)
    ensures var q := p.(due := due, going := going, gagged := gagged); Here(h, q) && PeerOk(h, q)
  {
    hide Current, Known, Ok, ReportOk, Evaluated;
  }

  lemma ProcessKeeps(cfg: Config, h: Hub, l: Link, c: nat)
    requires ConfigOk(cfg) && SearchOk(h) && LinkInv(cfg, h, l) && CanProcess(l.peer, c)
    requires Computed(l.peer.view, Stands(l.peer, c).1) <= h.evaluated
    ensures LinkInv(cfg, h, Process(cfg, l, c))
  {
    hide CentreOk, Inside, Known, Ok, Here, PeerOk, ReportOk, ReportsOk, Along, Final, Improves, CanProcess, Stands,
         GaggedAfter, Overwrites;
    AlongHere(h, l.peer, l.inbox);
    ProcessedOk(cfg, h, l.peer, c);
    var q := Processed(cfg, l.peer, c).(gagged := GaggedAfter(cfg, l, c));
    FlagsKeep(h, Processed(cfg, l.peer, c), l.peer.due, l.peer.going, q.gagged);
    FlagsKeep(h, Processed(cfg, l.peer, c), false, l.peer.due, q.gagged);
    ReportingKeeps(cfg, h, l, q.(due := false, going := l.peer.due), DoneReport(cfg, l.peer, c));
    PeerSteps(cfg, h, l, q, l.outbox, l.sending);
  }

  lemma BootstrapKeeps(cfg: Config, h: Hub, l: Link, point: seq<nat>)
    requires ConfigOk(cfg) && SearchOk(h) && LinkInv(cfg, h, l) && CanBootstrap(l.peer, point)
    requires Computed(l.peer.view, point) <= h.evaluated
    ensures LinkInv(cfg, h, Bootstrap(cfg, l, point))
  {
    hide CentreOk, Inside, Known, Ok, ReportsOk, Along, Final, Current, Evaluated, PointOk, ViewOk;
    AlongHere(h, l.peer, l.inbox);
    var v := cfg.f(l.peer.view.frame, point);
    if point != l.peer.view.centre && v < Aim(cfg.ratio, l.peer.value) {
      var q := l.peer.(value := v, going := false);
      ReportingKeeps(cfg, h, l, q, Found(q.key, q.view, point, v));
    }
  }

  lemma SentKeeps(cfg: Config, h: Hub, l: Link)
    requires SearchOk(h) && LinkInv(cfg, h, l)
    ensures LinkInv(cfg, h, Sent(l))
  {
    hide CentreOk, Inside, Known, Ok, Along, Final, Current, Evaluated, ReportOk;
    AlongHere(h, l.peer, l.inbox);
    if l.peer.draft.Some? {
      PeerSteps(cfg, h, l, l.peer.(draft := None, unreported := {}), l.outbox + [l.peer.draft.value], true);
    } else {
      PeerSteps(cfg, h, l, l.peer, l.outbox, false);
    }
  }

  lemma DueKeeps(cfg: Config, h: Hub, l: Link)
    requires SearchOk(h) && LinkInv(cfg, h, l)
    ensures LinkInv(cfg, h, Due(l))
  {
    hide Current, Known, Ok, ReportOk, Evaluated, Here, PeerOk, Along, Final, ReportsOk;
    AlongHere(h, l.peer, l.inbox);
    FlagsKeep(h, l.peer, Due(l).peer.due, l.peer.going, l.peer.gagged);
    PeerSteps(cfg, h, l, Due(l).peer, l.outbox, l.sending);
  }

  lemma RestKeeps(cfg: Config, h: Hub, l: Link)
    requires SearchOk(h) && LinkInv(cfg, h, l)
    ensures LinkInv(cfg, h, l.(peer := Resting(l.peer)))
  {
    hide Current, Known, Ok, ReportOk, Evaluated, Here, PeerOk, Along, Final, ReportsOk;
    AlongHere(h, l.peer, l.inbox);
    FlagsKeep(h, l.peer, l.peer.due, false, l.peer.gagged);
    PeerSteps(cfg, h, l, Resting(l.peer), l.outbox, l.sending);
  }

  lemma WrittenKeeps(cfg: Config, h: Hub, l: Link)
    requires SearchOk(h) && Ready(h) && LinkInv(cfg, h, l)
    ensures LinkInv(cfg, h, Written(cfg, h, l))
  {
    hide CentreOk, Inside, Known, Ok, Here, PeerOk, ReportsOk, Along, Final;
    if l.late {
      SendFull(cfg, h, l.(writing := false, late := false));
    }
  }

  lemma NewLink(cfg: Config, h: Hub, memory: View, host: Host, sending: bool)
    requires ConfigOk(cfg) && SearchOk(h) && Ready(h) && host.size == h.size
    ensures LinkInv(cfg, h, Newcomer(cfg, h, memory, host, sending))
  {
    hide CentreOk;
    var l := Link(Peer(0, memory, cfg.largish, {}, {}, None, host, false, false, false), [], [], h.key, false, false, {}, sending);
    SendFull(cfg, h, l);
  }
}
