/** No unit gets lost: in every run, whatever the server takes a peer to be busy with is on the peer's list, is kept back to be
    reported, or is listed in a report on its way, but for what the peer has done behind a waiting draft. */
module Accounts {
  import opened Sites
  import opened Views
  import opened Search
  import opened Protocol
  import opened Safety
  import Duties
  import Runs

  // ----- What a peer keeps back -----

  /** What a peer is to keep back after an event: what it has done since a report of its last went out, or since it read a new
      key. */
  ghost function KeptBack(cfg: Config, s: System, i: nat, e: Event, kept: set<nat>): set<nat>
    requires ConfigOk(cfg) && Enabled(cfg, s, e)
  {
    var t := Step(cfg, s, e);
    if i !in s.links || i !in t.links then {}
    else if |t.links[i].outbox| > |s.links[i].outbox| then {}
    else
      match e
      case Evaluate(k, c) => if k == i then kept + {c} else kept
      case ReadMessage(k) =>
        var p, m := s.links[i].peer, s.links[i].inbox;
        if k == i && Duties.NewKey(p, m[0]) && CanApply(p, m[0]) then {} else kept
      case _ => kept
  }

  ghost function KeptBackAlong(cfg: Config, s: System, i: nat, events: seq<Event>, t: System, kept: set<nat>): set<nat>
    requires ConfigOk(cfg) && Protocol.Runs(cfg, s, events, t)
    decreases |events|
  {
    if events == [] then kept
    else KeptBackAlong(cfg, Step(cfg, s, events[0]), i, events[1..], t, KeptBack(cfg, s, i, events[0], kept))
  }

  lemma KeptBackStep(cfg: Config, s: System, i: nat, e: Event, kept: set<nat>)
    requires ConfigOk(cfg) && Enabled(cfg, s, e) && (i in s.links ==> s.links[i].peer.unreported == kept)
    ensures i in Step(cfg, s, e).links ==> Step(cfg, s, e).links[i].peer.unreported == KeptBack(cfg, s, i, e, kept)
  {
    if i in s.links {
      if Duties.Own(e, i) { KeptBackOwn(cfg, s, i, e, kept); } else {
        hide Step, Enabled, ConfigOk, CanApply;
        Duties.OthersLeaveAlone(cfg, s, i, e);
      }
    } else if i in Step(cfg, s, e).links {
      OnlyJoins(cfg, s, i, e);
    }
  }

  lemma KeptBackOwn(cfg: Config, s: System, i: nat, e: Event, kept: set<nat>)
    requires ConfigOk(cfg) && Enabled(cfg, s, e) && i in s.links && s.links[i].peer.unreported == kept && Duties.Own(e, i)
    ensures i in Step(cfg, s, e).links ==> Step(cfg, s, e).links[i].peer.unreported == KeptBack(cfg, s, i, e, kept)
  {
    hide Step, ConfigOk, Aim, Where, ViewOk, Span, CanApply;
    match e
    case Leave(_) => Left(cfg, s, i);
    case ReadMessage(_) => KeptBackRead(cfg, s, i, kept);
    case Evaluate(_, c) => KeptBackUnit(cfg, s, i, c, kept);
    case ReportDue(_) => Duties.AfterWait(cfg, s, i);
    case Rest(_) => Duties.AfterRest(cfg, s, i);
    case TryPoint(_, point) => Duties.AfterAttempt(cfg, s, i, point);
    case SendDone(_) => Duties.AfterWrite(cfg, s, i);
  }

  lemma KeptBackRead(cfg: Config, s: System, i: nat, kept: set<nat>)
    requires ConfigOk(cfg) && Enabled(cfg, s, ReadMessage(i)) && s.links[i].peer.unreported == kept
    ensures
      var t := Step(cfg, s, ReadMessage(i));
      i in t.links && t.links[i].peer.unreported == KeptBack(cfg, s, i, ReadMessage(i), kept)
  {
    hide ViewOf, Where, Span, ViewOk, ConfigOk;
  }

  lemma KeptBackUnit(cfg: Config, s: System, i: nat, c: nat, kept: set<nat>)
    requires ConfigOk(cfg) && Enabled(cfg, s, Evaluate(i, c)) && s.links[i].peer.unreported == kept
    ensures
      var t := Step(cfg, s, Evaluate(i, c));
      i in t.links && t.links[i].peer.unreported == KeptBack(cfg, s, i, Evaluate(i, c), kept)
  {
    hide Step, ConfigOk, Aim, Where, ViewOk, Span, IsNext;
    Duties.AfterUnit(cfg, s, i, c);
  }

  lemma Left(cfg: Config, s: System, i: nat)
    requires ConfigOk(cfg) && Enabled(cfg, s, Leave(i))
    ensures i !in Step(cfg, s, Leave(i)).links
  {
  }

  lemma OnlyJoins(cfg: Config, s: System, i: nat, e: Event)
    requires ConfigOk(cfg) && Enabled(cfg, s, e) && i !in s.links && i in Step(cfg, s, e).links
    ensures e.Join? && e.i == i && Step(cfg, s, e).links[i] == Newcomer(cfg, s.hub, e.memory, e.host, e.sending)
    ensures Step(cfg, s, e).links[i].peer.unreported == {}
  {
    hide CanProcess, Process, Bootstrap, Sent, Written, LostNow, OverlookedNow, Stands, IsNext, Ok, Apply, ConfigOk,
         CanBootstrap, Made, GeoOk, Absorb, Recentred, Advanced, Narrowed, AfterBoot, CanBoot, OnPeerReport, Stale, AllEnded;
  }

  /** Over every run a peer keeps back exactly that. */
  lemma {:induction false} KeepsBack(cfg: Config, s: System, i: nat, events: seq<Event>, t: System, kept: set<nat>)
    requires ConfigOk(cfg) && Protocol.Runs(cfg, s, events, t) && (i in s.links ==> s.links[i].peer.unreported == kept)
    ensures i in t.links ==> t.links[i].peer.unreported == KeptBackAlong(cfg, s, i, events, t, kept)
    decreases |events|
  {
    hide Step, Enabled, KeptBack;
    if events != [] {
      KeptBackStep(cfg, s, i, events[0], kept);
      KeepsBack(cfg, Step(cfg, s, events[0]), i, events[1..], t, KeptBack(cfg, s, i, events[0], kept));
    }
  }

  // ----- What the server takes a peer to be busy with -----

  function Listed(r: Report): set<nat> {
    match r
    case Found(_, _, _, _) => {}
    case Done(_, _, _, _, units) => units
  }

  /** A report on its way that the server will accept lists the unit. */
  ghost predicate OnWay(key: nat, outbox: seq<Report>, c: nat) {
    exists k :: 0 <= k < |outbox| && outbox[k].key == key && c in Listed(outbox[k])
  }

  /** What a peer will never report of what it has done since the last message it read: units done behind a draft that then went
      out as it stood. */
  ghost function Dropped(s: System, i: nat, e: Event, dropped: set<nat>): set<nat> {
    if i !in s.links then {}
    else
      var p := s.links[i].peer;
      match e
      case ReadMessage(k) => if k == i then {} else dropped
      case SendDone(k) => if k == i && p.draft.Some? then dropped + (p.unreported - Listed(p.draft.value)) else dropped
      case _ => dropped
  }

  ghost function DroppedAlong(cfg: Config, s: System, i: nat, events: seq<Event>, t: System, dropped: set<nat>): set<nat>
    requires ConfigOk(cfg) && Protocol.Runs(cfg, s, events, t)
    decreases |events|
  {
    if events == [] then dropped
    else DroppedAlong(cfg, Step(cfg, s, events[0]), i, events[1..], t, Dropped(s, i, events[0], dropped))
  }

  /** Of a peer that is not late, every unit of its share is on the last list on its way to it, or, where it has read everything,
      still on its list, kept back, listed in a report on its way, or dropped. */
  ghost predicate Held(cfg: Config, key: nat, l: Link, dropped: set<nat>) {
    !l.late ==>
      && key < l.echo + cfg.limit
      && if l.inbox != [] then l.share <= l.inbox[|l.inbox| - 1].work
         else forall c :: c in l.share ==>
                c in l.peer.work || c in l.peer.unreported || OnWay(key, l.outbox, c) || c in dropped
  }

  /** Reports arrive in the order of their keys, and a peer that has read nothing yet has the whole state on its way to it. */
  ghost predicate InOrder(l: Link) {
    && 1 <= l.echo
    && (forall k :: 0 <= k < |l.outbox| ==> l.echo <= l.outbox[k].key)
    && (forall k, m :: 0 <= k <= m < |l.outbox| ==> l.outbox[k].key <= l.outbox[m].key)
    && if l.peer.key == 0 then
         l.outbox == [] && l.peer.draft.None? && l.inbox != [] && l.inbox[0].Full? && l.echo <= l.inbox[0].key
       else l.echo <= l.peer.key
  }

  ghost predicate Account(cfg: Config, key: nat, l: Link, dropped: set<nat>) { InOrder(l) && Held(cfg, key, l, dropped) }

  // ----- Messages to the peer -----

  /** Whoever a message is for that carries its share is in order, whatever it did before. */
  lemma SendHeld(cfg: Config, h: Hub, l: Link, m: Message, dropped: set<nat>)
    requires InOrder(l) && m.work == l.share
    ensures Account(cfg, h.key, Send(cfg, h, l, m), dropped)
  {
  }

  lemma WrittenHeld(cfg: Config, h: Hub, l: Link, dropped: set<nat>)
    requires Account(cfg, h.key, l, dropped)
    ensures Account(cfg, h.key, Written(cfg, h, l), dropped)
  {
    hide Held, InOrder;
    if l.late {
      assert InOrder(l.(writing := false, late := false)) by { LinkOnly(l, l.(writing := false, late := false)); }
      SendHeld(cfg, h, l.(writing := false, late := false), FullOf(h, l.share), dropped);
    } else {
      Shrunk(cfg, h.key, l, l.(writing := false), dropped);
    }
  }

  lemma LinkOnly(l: Link, t: Link)
    requires InOrder(l) && Duties.SamePeer(l, t) && t.inbox == l.inbox && t.echo == l.echo
    ensures InOrder(t)
  {
  }

  /** Nothing happens but that the share gets smaller. */
  lemma Shrunk(cfg: Config, key: nat, l: Link, t: Link, dropped: set<nat>)
    requires Account(cfg, key, l, dropped) && t == l.(share := t.share, writing := t.writing) && t.share <= l.share
    ensures Account(cfg, key, t, dropped)
  {
  }

  // ----- The peer's own steps -----

  /** What the invariant of the runs says of a link. */
  ghost predicate Facts(cfg: Config, key: nat, l: Link) {
    && (forall k :: 0 <= k < |l.outbox| ==> l.outbox[k].key <= l.peer.key)
    && (l.peer.unreported != {} ==> !l.peer.view.boot)
    && (l.peer.draft.Some? ==> l.peer.draft.value.key == l.peer.key)
    && (l.inbox != [] ==> CanApply(l.peer, l.inbox[0]) && l.peer.key <= Apply(l.peer, l.inbox[0]).key)
    && (l.inbox == [] && !l.late && key < l.echo + cfg.limit ==> l.peer.key == key)
  }

  lemma SafeFacts(cfg: Config, h: Hub, l: Link)
    requires SearchOk(h) && LinkInv(cfg, h, l)
    ensures Facts(cfg, h.key, l)
  {
    hide Here, ReportOk, ShareOk, Apply, CanApply, Evaluated, KnownHere, Ok;
  }

  lemma ReadHeld(cfg: Config, key: nat, l: Link, dropped: set<nat>)
    requires Account(cfg, key, l, dropped) && Facts(cfg, key, l) && l.inbox != []
    ensures Account(cfg, key, l.(peer := Apply(l.peer, l.inbox[0]), inbox := l.inbox[1..]), {})
  {
    hide ViewOf, ViewOk, Span, Where;
  }

  /** A report goes out, or is drafted. */
  lemma ReportingHeld(cfg: Config, key: nat, l: Link, q: Peer, r: Report, c: set<nat>, dropped: set<nat>)
    requires Account(cfg, key, l, dropped) && Facts(cfg, key, l) && l.peer.key != 0 && r.key == q.key == l.peer.key
    requires q.unreported == Listed(r) == l.peer.unreported + c && q.work == l.peer.work - c
    ensures Account(cfg, key, Reporting(l, q, r), dropped)
  {
    var t := Reporting(l, q, r);
    if l.sending {
      DraftHeld(cfg, key, l, t, dropped);
    } else {
      hide Facts;
      assert forall k :: 0 <= k < |l.outbox| ==> t.outbox[k] == l.outbox[k];
      assert t.outbox[|l.outbox|] == r;
      if !l.late && l.inbox == [] {
        assert key == l.peer.key by { KeyNow(cfg, key, l); }
        forall x | x in l.share ensures x in t.peer.work || OnWay(key, t.outbox, x) || x in dropped {
          StillOnWay(key, l.outbox, r, x);
        }
      }
      assert InOrder(t) by { OrderMore(cfg, key, l, t); }
    }
  }

  lemma KeyNow(cfg: Config, key: nat, l: Link)
    requires Facts(cfg, key, l) && l.inbox == [] && !l.late && key < l.echo + cfg.limit
    ensures l.peer.key == key
  {
  }

  lemma OrderMore(cfg: Config, key: nat, l: Link, t: Link)
    requires InOrder(l) && Facts(cfg, key, l) && l.peer.key != 0 && t.peer.key == l.peer.key && t.echo == l.echo
    requires |t.outbox| == |l.outbox| + 1 && t.outbox[|l.outbox|].key == l.peer.key
    requires forall k :: 0 <= k < |l.outbox| ==> t.outbox[k] == l.outbox[k]
    ensures InOrder(t)
  {
    hide CanApply, Apply;
  }

  lemma DraftHeld(cfg: Config, key: nat, l: Link, t: Link, dropped: set<nat>)
    requires Account(cfg, key, l, dropped) && l.peer.key != 0 && t == l.(peer := t.peer) && t.peer.key == l.peer.key
    requires l.peer.unreported <= t.peer.unreported && l.peer.work <= t.peer.work + t.peer.unreported
    ensures Account(cfg, key, t, dropped)
  {
  }

  /** A unit leaves the list, and is listed or kept back. */
  lemma ProcessHeld(cfg: Config, key: nat, l: Link, c: nat, dropped: set<nat>)
    requires ConfigOk(cfg) && CanProcess(l.peer, c) && Account(cfg, key, l, dropped) && Facts(cfg, key, l)
    ensures Account(cfg, key, Process(cfg, l, c), dropped)
  {
    hide Improves, Reports, GaggedAfter, Stands, Span, ViewOk, ConfigOk, Account, Facts;
    var q := Processed(cfg, l.peer, c).(gagged := GaggedAfter(cfg, l, c));
    if Reports(cfg, l.peer, c) {
      ReportingHeld(cfg, key, l, q.(due := false, going := l.peer.due), DoneReport(cfg, l.peer, c), {c}, dropped);
    } else {
      assert l.peer.key != 0;
      DraftHeld(cfg, key, l, l.(peer := q), dropped);
    }
  }

  lemma BootstrapHeld(cfg: Config, key: nat, l: Link, point: seq<nat>, dropped: set<nat>)
    requires ConfigOk(cfg) && CanBootstrap(l.peer, point) && Account(cfg, key, l, dropped) && Facts(cfg, key, l)
    ensures Account(cfg, key, Bootstrap(cfg, l, point), dropped)
  {
    hide Aim, PointOk, Account, Facts;
    assert l.peer.key != 0 && (l.peer.unreported == {}) by { BootKeepsNothing(cfg, key, l); }
    var v := cfg.f(l.peer.view.frame, point);
    var q := l.peer.(value := v, going := false);
    if point != l.peer.view.centre && v < Aim(cfg.ratio, l.peer.value) {
      ReportingHeld(cfg, key, l, q, Found(q.key, q.view, point, v), {}, dropped);
    }
  }

  lemma BootKeepsNothing(cfg: Config, key: nat, l: Link)
    requires Facts(cfg, key, l) && l.peer.view.boot
    ensures l.peer.unreported == {}
  {
  }

  /** The draft goes out; what it does not list of what has been done is dropped. */
  lemma SentHeld(cfg: Config, key: nat, l: Link, dropped: set<nat>)
    requires Account(cfg, key, l, dropped) && Facts(cfg, key, l)
    ensures Account(cfg, key, Sent(l), if l.peer.draft.Some? then dropped + (l.peer.unreported - Listed(l.peer.draft.value))
                                       else dropped)
  {
    var t := Sent(l);
    match l.peer.draft
    case None =>
    case Some(r) =>
      var now := dropped + (l.peer.unreported - Listed(r));
      assert forall k :: 0 <= k < |l.outbox| ==> t.outbox[k] == l.outbox[k];
      if !l.late && l.inbox == [] {
        forall c | c in l.share ensures c in t.peer.work || c in t.peer.unreported || OnWay(key, t.outbox, c) || c in now {
          StillOnWay(key, l.outbox, r, c);
        }
      }
  }

  lemma StillOnWay(key: nat, outbox: seq<Report>, r: Report, c: nat)
    ensures OnWay(key, outbox, c) || (r.key == key && c in Listed(r)) ==> OnWay(key, outbox + [r], c)
  {
    assert (outbox + [r])[|outbox|] == r;
    if OnWay(key, outbox, c) {
      var k :| 0 <= k < |outbox| && outbox[k].key == key && c in Listed(outbox[k]);
      assert (outbox + [r])[k] == outbox[k];
    }
  }

  // ----- Reports -----

  lemma TailOrder(l: Link)
    requires InOrder(l) && l.outbox != [] && l.outbox[0].key <= l.peer.key
    ensures InOrder(l.(outbox := l.outbox[1..], echo := l.outbox[0].key))
  {
  }

  lemma TailHeld(cfg: Config, key: nat, l: Link, share: set<nat>, dropped: set<nat>)
    requires Account(cfg, key, l, dropped) && l.outbox != [] && share <= l.share
    requires cfg.limit >= 1 && (l.outbox[0].key == key ==> share <= l.share - Listed(l.outbox[0]))
    requires Facts(cfg, key, l)
    ensures Account(cfg, key, l.(outbox := l.outbox[1..], echo := l.outbox[0].key, share := share), dropped)
  {
    TailOrder(l);
    var t := l.(outbox := l.outbox[1..], echo := l.outbox[0].key, share := share);
    if !l.late && l.inbox == [] {
      forall c | c in share ensures c in l.peer.work || c in l.peer.unreported || OnWay(key, t.outbox, c) || c in dropped {
        if OnWay(key, l.outbox, c) {
          var k :| 0 <= k < |l.outbox| && l.outbox[k].key == key && c in Listed(l.outbox[k]);
          assert t.outbox[k - 1] == l.outbox[k];
        }
      }
    }
  }

  lemma ReportHeld(cfg: Config, s: System, i: nat, k: nat, idle: bool, deal: map<nat, set<nat>>, dropped: set<nat>)
    requires i in s.links && k in s.links && s.links[k].outbox != [] && forall j :: j in s.links ==> j in deal
    requires cfg.limit >= 1
    requires Account(cfg, s.hub.key, s.links[i], dropped) && Facts(cfg, s.hub.key, s.links[i])
    ensures
      var t := ReadReport(cfg, s, k, idle, deal);
      i in t.links && Account(cfg, t.hub.key, t.links[i], dropped)
  {
    hide CanBoot, AfterBoot, OnPeerReport, Send, Stale, Account, Facts;
    var h, r := s.hub, s.links[k].outbox[0];
    var l := s.links[k].(outbox := s.links[k].outbox[1..], echo := r.key);
    if k == i { TailOrderFacts(cfg, h.key, s.links[i], dropped); }
    if r.key != h.key {
      if k == i {
        TailHeld(cfg, h.key, s.links[i], s.links[i].share, dropped);
        SendHeld(cfg, h, l, FullOf(h, l.share), dropped);
      }
    } else if CanBoot(h, r) {
      var h' := AfterBoot(h, r);
      var links := s.links[k := l];
      OrderOf(cfg, h.key, s.links[i], dropped);
      ShareOrder(links[i], deal[i]);
      SendHeld(cfg, h', links[i].(share := deal[i]), WithWork(FullOf(h', {}), deal[i]), dropped);
    } else if r.Done? {
      if k == i { TailHeld(cfg, h.key, s.links[i], l.share - r.units, dropped); }
    }
  }

  lemma OrderOf(cfg: Config, key: nat, l: Link, dropped: set<nat>)
    requires Account(cfg, key, l, dropped)
    ensures InOrder(l)
  {
  }

  lemma TailOrderFacts(cfg: Config, key: nat, l: Link, dropped: set<nat>)
    requires Account(cfg, key, l, dropped) && Facts(cfg, key, l) && l.outbox != []
    ensures InOrder(l.(outbox := l.outbox[1..], echo := l.outbox[0].key))
  {
  }

  lemma ShareOrder(l: Link, share: set<nat>)
    requires InOrder(l)
    ensures InOrder(l.(share := share))
  {
  }

  // ----- Syncs -----

  lemma FinishHeld(cfg: Config, s: System, i: nat, next: Geometry, deal: map<nat, set<nat>>, assist: set<nat>, dropped: set<nat>)
    requires Ok(s.hub.search) && GeoOk(next) && 1 <= next.levels && i in s.links && forall j :: j in s.links ==> j in deal
    requires Account(cfg, s.hub.key, s.links[i], dropped)
    ensures
      var t := FinishSync(cfg, s, next, deal, assist);
      !t.hub.phase.Converged? ==> i in t.links && Account(cfg, t.hub.key, t.links[i], dropped)
  {
    hide Ok, GeoOk, AllEnded, Narrowed, Advanced, Stale, Send, Account;
    var h, l := s.hub, s.links[i];
    OrderOf(cfg, h.key, l, dropped);
    ShareOrder(l, deal[i]);
    if Advanced(h).level >= h.search.geo.levels {
      var h' := Completed(Narrowed(cfg, h, next));
      SendHeld(cfg, h', l, FullOf(h', l.share), dropped);
    } else {
      var done := h.(search := Advanced(h).(redistribute := false), phase := Idle);
      var h' := Completed(done);
      if h.phase.Recentring? {
        SendHeld(cfg, h', l.(share := deal[i]), WithWork(Centre(h'.key, h.phase.complexity, h'.msgValue, {}), deal[i]), dropped);
      }
      SendHeld(cfg, done, l.(share := deal[i]), WithWork(Work({}, true), deal[i]), dropped);
      SendHeld(cfg, done, l, Work(l.share, false), dropped);
    }
  }

  // ----- Every run -----

  lemma JoinHeld(cfg: Config, h: Hub, memory: View, host: Host, sending: bool)
    requires cfg.limit >= 1 && 1 <= h.key == h.msgKey
    ensures Account(cfg, h.key, Newcomer(cfg, h, memory, host, sending), {})
  {
    var l := Link(Peer(0, memory, cfg.largish, {}, {}, None, host, false, false, false), [], [], h.key, false, false, {}, sending);
    assert Newcomer(cfg, h, memory, host, sending) == l.(inbox := [FullOf(h, {})], writing := true);
  }

  lemma OwnHeld(cfg: Config, s: System, i: nat, e: Event, dropped: set<nat>)
    requires ConfigOk(cfg) && Enabled(cfg, s, e) && i in s.links && Duties.Own(e, i)
    requires Account(cfg, s.hub.key, s.links[i], dropped) && Facts(cfg, s.hub.key, s.links[i])
    ensures
      var t := Step(cfg, s, e);
      t.hub.key == s.hub.key && (i in t.links ==> Account(cfg, t.hub.key, t.links[i], Dropped(s, i, e, dropped)))
  {
    hide Account, Facts, CanProcess, CanBootstrap, Process, Bootstrap, Apply, Sent, LostNow, OverlookedNow, IsNext, Stands, ConfigOk;
    var key, l := s.hub.key, s.links[i];
    match e
    case Leave(_) =>
    case ReadMessage(_) => ReadHeld(cfg, key, l, dropped);
    case Evaluate(_, c) => ProcessHeld(cfg, key, l, c, dropped);
    case ReportDue(_) => FlagsOnly(cfg, key, l, Due(l), dropped);
    case Rest(_) => FlagsOnly(cfg, key, l, l.(peer := Resting(l.peer)), dropped);
    case TryPoint(_, point) => BootstrapHeld(cfg, key, l, point, dropped);
    case SendDone(_) => SentHeld(cfg, key, l, dropped);
  }

  lemma FlagsOnly(cfg: Config, key: nat, l: Link, t: Link, dropped: set<nat>)
    requires Account(cfg, key, l, dropped) && t == l.(peer := l.peer.(due := t.peer.due, going := t.peer.going))
    ensures Account(cfg, key, t, dropped)
  {
  }

  lemma OtherHeld(cfg: Config, s: System, i: nat, e: Event, dropped: set<nat>)
    requires ConfigOk(cfg) && Enabled(cfg, s, e) && i in s.links && !Duties.Own(e, i)
    requires Account(cfg, s.hub.key, s.links[i], dropped) && Facts(cfg, s.hub.key, s.links[i])
    ensures
      var t := Step(cfg, s, e);
      !t.hub.phase.Converged? && i in t.links ==> Account(cfg, t.hub.key, t.links[i], Dropped(s, i, e, dropped))
  {
    hide Account, Facts, CanProcess, CanBootstrap, Process, Bootstrap, Apply, Sent, Written, LostNow, OverlookedNow, IsNext, Stands,
         ReadReport, FinishSync, Absorb, Recentred, Newcomer, ReportEmpties, SyncEmpties, Made, GeoOk, Ok, CanBoot, AfterBoot;
    var key, l := s.hub.key, s.links[i];
    match e
    case WriteDone(k) => if k == i { WrittenHeld(cfg, s.hub, l, dropped); }
    case Report(k, deal) => ReportHeld(cfg, s, i, k, ReportEmpties(s.links[k]), deal, dropped);
    case Start => Shrunk(cfg, key, l, Step(cfg, s, e).links[i], dropped);
    case Finish(next, deal, assist) => FinishHeld(cfg, s, i, next, deal, assist, dropped);
    case _ =>
  }

  lemma StepHeld(cfg: Config, s: System, i: nat, e: Event, dropped: set<nat>)
    requires ConfigOk(cfg) && Enabled(cfg, s, e) && SystemInv(cfg, s) && !s.hub.phase.Converged?
    requires i in s.links ==> Account(cfg, s.hub.key, s.links[i], dropped)
    ensures
      var t := Step(cfg, s, e);
      !t.hub.phase.Converged? && i in t.links ==> Account(cfg, t.hub.key, t.links[i], Dropped(s, i, e, dropped))
  {
    hide Step, Enabled, Account, Facts, LinkInv, VisitedOk, Inv, Settled, Made, SearchOk, Newcomer;
    if i in s.links {
      SafeFacts(cfg, s.hub, s.links[i]);
      if Duties.Own(e, i) { OwnHeld(cfg, s, i, e, dropped); } else { OtherHeld(cfg, s, i, e, dropped); }
    } else if i in Step(cfg, s, e).links {
      OnlyJoins(cfg, s, i, e);
      JoinHeld(cfg, s.hub, e.memory, e.host, e.sending);
      JoinKey(cfg, s, e);
    }
  }

  lemma JoinKey(cfg: Config, s: System, e: Event)
    requires ConfigOk(cfg) && Enabled(cfg, s, e) && e.Join?
    ensures Step(cfg, s, e).hub.key == s.hub.key
  {
  }

  lemma {:induction false} HeldAlong(cfg: Config, s: System, i: nat, events: seq<Event>, t: System, dropped: set<nat>)
    requires ConfigOk(cfg) && SystemInv(cfg, s) && Protocol.Runs(cfg, s, events, t) && !t.hub.phase.Converged?
    requires i in s.links && !s.hub.phase.Converged? ==> Account(cfg, s.hub.key, s.links[i], dropped)
    ensures i in t.links ==> Account(cfg, t.hub.key, t.links[i], DroppedAlong(cfg, s, i, events, t, dropped))
    decreases |events|
  {
    hide SystemInv, Step, Enabled, Account, Dropped;
    if events != [] {
      var next := Step(cfg, s, events[0]);
      Runs.StepKeepsInv(cfg, s, events[0]);
      if !s.hub.phase.Converged? { StepHeld(cfg, s, i, events[0], dropped); } else { Runs.StaysConverged(cfg, s, events[0]); }
      HeldAlong(cfg, next, i, events[1..], t, Dropped(s, i, events[0], dropped));
    }
  }

  /** In every state of every run of a fresh task, of a peer that is not late: as long as something is on its way to it, its share
      is on the list that comes last; and once it has read everything, each unit of the share is on its list, kept back to be
      reported, listed in a report the server will accept, or dropped since it read the last message. */
  lemma NothingForgotten(cfg: Config, g: Geometry, events: seq<Event>, s: System, i: nat)
    requires Runs.RunsFrom(cfg, g, events, s) && !s.hub.phase.Converged? && i in s.links && !s.links[i].late
    ensures
      var l := s.links[i];
      if l.inbox != [] then l.share <= l.inbox[|l.inbox| - 1].work
      else forall c :: c in l.share ==>
             || c in l.peer.work || c in l.peer.unreported || OnWay(s.hub.key, l.outbox, c)
             || c in DroppedAlong(cfg, Protocol.Fresh(cfg, g), i, events, s, {})
  {
    hide SystemInv, Protocol.Runs, DroppedAlong, Makeable, AllEnded, OnWay;
    Runs.FreshInv(cfg, g);
    HeldAlong(cfg, Protocol.Fresh(cfg, g), i, events, s, {});
  }

  /** So a peer that has come to rest and has dropped nothing is known by the server to have nothing left. */
  lemma AtRestIsDone(cfg: Config, g: Geometry, events: seq<Event>, s: System, i: nat)
    requires Runs.RunsFrom(cfg, g, events, s) && !s.hub.phase.Converged? && i in s.links && !s.links[i].late
    requires var l := s.links[i]; l.inbox == [] && l.outbox == [] && l.peer.work == {} && l.peer.unreported == {}
    ensures s.links[i].share <= DroppedAlong(cfg, Protocol.Fresh(cfg, g), i, events, s, {})
  {
    hide Runs.RunsFrom, DroppedAlong;
    NothingForgotten(cfg, g, events, s, i);
  }
}
