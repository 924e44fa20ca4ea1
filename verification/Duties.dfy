/** What peers owe the server, step by step and along runs: when a report is made, what it lists, and when a peer goes on. */
module Duties {
  import opened Sites
  import opened Views
  import opened Search
  import opened Protocol

  // ----- Whose step it is -----

  predicate Own(e: Event, i: nat) {
    match e
    case Leave(k) => k == i
    case ReadMessage(k) => k == i
    case Evaluate(k, _) => k == i
    case ReportDue(k) => k == i
    case Rest(k) => k == i
    case TryPoint(k, _) => k == i
    case SendDone(k) => k == i
    case _ => false
  }

  /** What the peer has and what it has sent; the rest of a link is the server's. */
  ghost predicate SamePeer(l: Link, t: Link) { t.peer == l.peer && t.outbox == l.outbox && t.sending == l.sending }

  lemma SendLeaves(cfg: Config, h: Hub, l: Link, m: Message)
    ensures SamePeer(l, Send(cfg, h, l, m))
  {
  }

  lemma SendAllLeaves(cfg: Config, h: Hub, links: map<nat, Link>, deal: map<nat, set<nat>>, m: Message, i: nat)
    requires i in links && forall j :: j in links ==> j in deal
    ensures var t := SendAll(cfg, h, links, deal, m); i in t && SamePeer(links[i], t[i])
  {
    SendLeaves(cfg, h, links[i].(share := deal[i]), WithWork(m, deal[i]));
  }

  lemma ReportLeaves(cfg: Config, s: System, i: nat, k: nat, idle: bool, deal: map<nat, set<nat>>)
    requires i in s.links && k in s.links && s.links[k].outbox != [] && forall j :: j in s.links ==> j in deal
    ensures
      var l, t := s.links[i], ReadReport(cfg, s, k, idle, deal);
      && i in t.links
      && (SamePeer(l, t.links[i]) || (k == i && SamePeer(l.(outbox := l.outbox[1..]), t.links[i])))
  {
    hide CanBoot, AfterBoot, Stale, OnPeerReport, FullOf, Send, SendAll;
    var h, r := s.hub, s.links[k].outbox[0];
    var l := s.links[k].(outbox := s.links[k].outbox[1..], echo := r.key);
    if r.key != h.key {
      SendLeaves(cfg, h, l, FullOf(h, l.share));
    } else if CanBoot(h, r) {
      var h' := AfterBoot(h, r);
      SendAllLeaves(cfg, h', s.links[k := l], deal, FullOf(h', {}), i);
    }
  }

  lemma FinishLeaves(cfg: Config, s: System, i: nat, next: Geometry, deal: map<nat, set<nat>>, assist: set<nat>)
    requires Ok(s.hub.search) && GeoOk(next) && 1 <= next.levels && i in s.links && forall j :: j in s.links ==> j in deal
    ensures var t := FinishSync(cfg, s, next, deal, assist); i in t.links && SamePeer(s.links[i], t.links[i])
  {
    hide Ok, GeoOk, AllEnded, Narrowed, Advanced, Completed, Stale, FullOf, Send, WithWork;
    forall h, l, m {:trigger Send(cfg, h, l, m)} ensures SamePeer(l, Send(cfg, h, l, m)) { SendLeaves(cfg, h, l, m); }
  }

  lemma StartLeaves(s: System, i: nat, idle: bool)
    requires Ok(s.hub.search) && i in s.links
    ensures var t := StartSync(s, idle); i in t.links && SamePeer(s.links[i], t.links[i])
  {
    hide Ok, Absorb, Recentred;
  }

  /** Whatever the server and other peers do, a peer is as it was, and so is what it has sent, but for the report that is taken
      from its front. */
  lemma OthersLeaveAlone(cfg: Config, s: System, i: nat, e: Event)
    requires ConfigOk(cfg) && Enabled(cfg, s, e) && i in s.links && !Own(e, i)
    ensures
      var l, t := s.links[i], Step(cfg, s, e);
      && i in t.links
      && (SamePeer(l, t.links[i])
          || (e.Report? && e.i == i && l.outbox != [] && SamePeer(l.(outbox := l.outbox[1..]), t.links[i])))
  {
    hide CanProcess, Process, Bootstrap, LostNow, OverlookedNow, Stands, IsNext, Ok, CanBoot, Apply, ReadReport, StartSync,
         FinishSync, AfterBoot, Newcomer, FullOf, ConfigOk, Send, CanBootstrap, Made, GeoOk;
    match e
    case Report(k, deal) => ReportLeaves(cfg, s, i, k, ReportEmpties(s.links[k]), deal);
    case Start => StartLeaves(s, i, SyncEmpties(s));
    case Finish(next, deal, assist) => FinishLeaves(cfg, s, i, next, deal, assist);
    case WriteDone(k) =>
      var l := s.links[k];
      SendLeaves(cfg, s.hub, l.(writing := false, late := false), FullOf(s.hub, l.share));
    case _ =>
  }

  // ----- A unit -----

  /** What a value must get below to be a find: the ratio below a value that is not negative, and beyond one that is. */
  lemma AimExact(ratio: real, value: real)
    requires ratio > 0.0
    ensures if value < 0.0 then Aim(ratio, value) == value * ratio else Aim(ratio, value) * ratio == value
  {
    if value >= 0.0 { assert value * (1.0 / ratio) * ratio == value * (1.0 / ratio * ratio); }
  }

  /** The report leaves at once where no write is under way, and otherwise waits for it, in the place of one that waits already. */
  ghost predicate MakesReport(l: Link, t: Link, r: Report)
    requires r.Done?
  {
    if l.sending then t.peer.draft == Some(r) && t.outbox == l.outbox && t.peer.unreported == r.units
    else t.peer.draft == l.peer.draft && t.outbox == l.outbox + [r] && t.sending && t.peer.unreported == {}
  }

  /** A unit is a find if it has moved away from the centre and gets below the target. A report is made exactly after a find, with
      nothing left to do, or where one is due; it names the find, if there is one, and lists all that has not been reported.
      After it the peer goes on only where it had been due. Without one everything stays for later. */
  lemma AfterUnit(cfg: Config, s: System, i: nat, c: nat)
    requires ConfigOk(cfg) && Enabled(cfg, s, Evaluate(i, c))
    ensures
      var l, u := s.links[i], Step(cfg, s, Evaluate(i, c));
      && i in u.links
      && var p, t := l.peer, u.links[i];
      var point := Where(p.view, c);
      var found := point != p.view.centre && cfg.f(p.view.frame, point) < Aim(cfg.ratio, p.value);
      var value := if found then cfg.f(p.view.frame, point) else p.value;
      var listed := p.unreported + {c};
      && t.peer.value == value && t.peer.work == p.work - {c} && t.peer.key == p.key && t.peer.view == p.view
      && if found || p.work == {c} || p.due then
           && MakesReport(l, t, Done(p.key, p.view, value, if found then Some(c) else None, listed))
           && !t.peer.due && t.peer.going == p.due
         else
           && t.outbox == l.outbox && t.peer.draft == p.draft && t.sending == l.sending
           && t.peer.unreported == listed && !t.peer.due && t.peer.going == p.going
  {
    hide Aim, Where, LostNow, OverlookedNow, GaggedAfter, IsNext, ViewOk, Span, ConfigOk;
    assert s.links[i].peer.work - {c} == {} <==> s.links[i].peer.work == {c};
  }

  /** `work` begins with all of [lo, c], and goes on behind a gap. */
  ghost predicate BeginsWith(work: set<nat>, lo: nat, c: nat) {
    lo <= c && c + 1 !in work && (forall x :: lo <= x <= c ==> x in work) && forall x :: x in work ==> lo <= x
  }

  /** What counts as evaluated is what the objective has been computed for: the point a peer has moved to, if it has moved. */
  lemma OnlyComputed(cfg: Config, s: System, e: Event)
    requires ConfigOk(cfg) && Enabled(cfg, s, e)
    ensures
      var seen := s.hub.evaluated;
      Step(cfg, s, e).hub.evaluated ==
        match e
        case Evaluate(i, c) =>
          var v := s.links[i].peer.view;
          if Where(v, c) == v.centre then seen else seen + {(v.frame, Where(v, c))}
        case TryPoint(i, point) =>
          var v := s.links[i].peer.view;
          if point == v.centre then seen else seen + {(v.frame, point)}
        case _ => seen
  {
    hide Process, Bootstrap, Sent, Written, LostNow, OverlookedNow, IsNext, Ok, Apply, ConfigOk, Absorb, Recentred, Advanced,
         OnPeerReport, OnBootReport, Stale, AllEnded, Newcomer, Where, Span, ViewOk, SendAll, Send, Made, Narrower, Shrunk, Dealt;
  }

  /** The unit done next is the end of the first run of the list. */
  lemma NextEndsRun(work: set<nat>, c: nat)
    ensures IsNext(work, c) <==> exists lo: nat :: BeginsWith(work, lo, c)
  {
    if IsNext(work, c) {
      var lo := Least(work, c);
      UpTo(work, lo, c);
      assert BeginsWith(work, lo, c);
    }
  }

  lemma {:induction false} Least(work: set<nat>, x: nat) returns (lo: nat)
    requires x in work
    ensures lo in work && lo <= x && forall y :: y in work ==> lo <= y
    decreases x
  {
    if y :| y in work && y < x { lo := Least(work, y); } else { lo := x; }
  }

  lemma {:induction false} UpTo(work: set<nat>, lo: nat, c: nat)
    requires lo in work && lo <= c && forall x :: x in work && x < c ==> x + 1 in work
    ensures forall x :: lo <= x <= c ==> x in work
    decreases c - lo
  {
    if lo < c { UpTo(work, lo + 1, c); }
  }

  // ----- A report that has been asked for -----

  /** The message asks for what has not been reported: a list that wants a reply, or the whole state again under the same key. */
  predicate Asks(p: Peer, m: Message) {
    match m
    case Work(_, reply) => reply
    case Full(key, _, _, _) => key == p.key
    case Centre(_, _, _, _) => false
  }

  /** Nothing happens to what the peer owes: it does no unit, stays, reads no new key, and no draft of its goes out. */
  predicate PassesBy(s: System, i: nat, e: Event)
    requires i in s.links
  {
    match e
    case Evaluate(k, _) => k != i
    case Leave(k) => k != i
    case SendDone(k) => k != i || s.links[i].peer.draft.None?
    case ReadMessage(k) => k != i || s.links[i].inbox == [] || !NewKey(s.links[i].peer, s.links[i].inbox[0])
    case _ => true
  }

  predicate NewKey(p: Peer, m: Message) { m.Centre? || (m.Full? && m.key != p.key) }

  ghost predicate AllPassBy(cfg: Config, s: System, i: nat, events: seq<Event>)
    requires ConfigOk(cfg)
    decreases |events|
  {
    events != [] ==>
      && i in s.links && Enabled(cfg, s, events[0]) && PassesBy(s, i, events[0])
      && AllPassBy(cfg, Step(cfg, s, events[0]), i, events[1..])
  }

  /** The peer owes a report of these units. */
  ghost predicate Owes(s: System, i: nat, key: nat, units: set<nat>) {
    && i in s.links && s.links[i].peer.due && s.links[i].peer.key == key && !s.links[i].peer.view.boot
    && s.links[i].peer.unreported == units
  }

  lemma AskedOwes(cfg: Config, s: System, i: nat)
    requires ConfigOk(cfg) && Enabled(cfg, s, ReadMessage(i)) && Asks(s.links[i].peer, s.links[i].inbox[0])
    requires s.links[i].peer.unreported != {} && !s.links[i].peer.view.boot
    ensures Owes(Step(cfg, s, ReadMessage(i)), i, s.links[i].peer.key, s.links[i].peer.unreported)
  {
    hide ViewOf;
  }

  lemma StillOwes(cfg: Config, s: System, i: nat, key: nat, units: set<nat>, e: Event)
    requires ConfigOk(cfg) && Enabled(cfg, s, e) && Owes(s, i, key, units) && PassesBy(s, i, e) && units != {}
    ensures Owes(Step(cfg, s, e), i, key, units)
  {
    if Own(e, i) {
      hide Process, LostNow, OverlookedNow, IsNext, ViewOf, Absorb, Recentred, Advanced, FullOf, Where, Span, Stands;
    } else {
      hide Step, Enabled;
      OthersLeaveAlone(cfg, s, i, e);
    }
  }

  lemma {:induction false} OwesAlong(cfg: Config, s: System, i: nat, key: nat, units: set<nat>, events: seq<Event>, t: System)
    requires ConfigOk(cfg) && Owes(s, i, key, units) && units != {}
    requires Protocol.Runs(cfg, s, events, t) && AllPassBy(cfg, s, i, events)
    ensures Owes(t, i, key, units)
    decreases |events|
  {
    hide Enabled, Step, Owes, PassesBy;
    if events != [] {
      StillOwes(cfg, s, i, key, units, events[0]);
      OwesAlong(cfg, Step(cfg, s, events[0]), i, key, units, events[1..], t);
    }
  }

  /** Once it has been asked, a peer that has something to report does so with the next unit it does, whatever happens in
      between to others and on the wire: the report, sent or drafted, lists all of it. */
  lemma ReplyMade(cfg: Config, s: System, i: nat, events: seq<Event>, t: System, c: nat)
    requires ConfigOk(cfg) && Enabled(cfg, s, ReadMessage(i)) && Asks(s.links[i].peer, s.links[i].inbox[0])
    requires s.links[i].peer.unreported != {} && !s.links[i].peer.view.boot
    requires Protocol.Runs(cfg, Step(cfg, s, ReadMessage(i)), events, t)
    requires AllPassBy(cfg, Step(cfg, s, ReadMessage(i)), i, events) && Enabled(cfg, t, Evaluate(i, c))
    ensures
      var u, was := Step(cfg, t, Evaluate(i, c)), s.links[i].peer;
      && i in u.links
      && exists r: Report ::
           r.Done? && r.key == was.key && r.units == was.unreported + {c} && MakesReport(t.links[i], u.links[i], r)
  {
    hide Step, Protocol.Runs, AllPassBy, MakesReport, Where, Aim;
    AskedOwes(cfg, s, i);
    OwesAlong(cfg, Step(cfg, s, ReadMessage(i)), i, s.links[i].peer.key, s.links[i].peer.unreported, events, t);
    AfterUnit(cfg, t, i, c);
  }

  /** A list that asks for no reply changes nothing but the work, and lets the peer go on. */
  lemma NotAsked(cfg: Config, s: System, i: nat)
    requires ConfigOk(cfg) && Enabled(cfg, s, ReadMessage(i)) && s.links[i].inbox[0].Work? && !s.links[i].inbox[0].reply
    ensures
      var l, t := s.links[i], Step(cfg, s, ReadMessage(i));
      && t.hub == s.hub && t.links.Keys == s.links.Keys
      && t.links[i] == l.(inbox := l.inbox[1..], peer := l.peer.(work := l.inbox[0].work, going := true))
  {
  }

  /** The whole state again, under the key the peer has, brings new work and nothing else. */
  lemma AskedAgain(cfg: Config, s: System, i: nat)
    requires ConfigOk(cfg) && Enabled(cfg, s, ReadMessage(i)) && s.links[i].inbox[0].Full?
    requires s.links[i].inbox[0].key == s.links[i].peer.key
    ensures
      var l, t := s.links[i], Step(cfg, s, ReadMessage(i));
      && t.hub == s.hub && t.links.Keys == s.links.Keys
      && var p := l.peer.(work := l.inbox[0].work, going := true, due := t.links[i].peer.due);
      && t.links[i] == l.(inbox := l.inbox[1..], peer := p)
      && (p.due <==> l.peer.due || l.peer.unreported != {})
  {
    hide ViewOf;
  }

  // ----- A new key -----

  /** Under a new key everything of the old one is forgotten, what has not been reported and what waits to be sent as well; the
      value and the work are the message's, and the peer goes on. */
  lemma NewKeyRead(cfg: Config, s: System, i: nat)
    requires ConfigOk(cfg) && Enabled(cfg, s, ReadMessage(i)) && NewKey(s.links[i].peer, s.links[i].inbox[0])
    requires CanApply(s.links[i].peer, s.links[i].inbox[0])
    ensures
      var l, m, t := s.links[i], s.links[i].inbox[0], Step(cfg, s, ReadMessage(i)).links[i];
      && t.peer.key == m.key && t.peer.value == m.value && t.peer.work == m.work && t.peer.host == l.peer.host
      && t.peer.unreported == {} && t.peer.draft.None? && !t.peer.due && t.peer.going
      && t == l.(inbox := l.inbox[1..], peer := t.peer)
      && if m.Full? then t.peer.view == ViewOf(l.peer.host, m.key, m.epoch)
         else t.peer.view == l.peer.view.(centre := Where(l.peer.view, m.complexity))
  {
    hide ViewOf, Where, Span, ViewOk;
  }

  // ----- The other steps of a peer -----

  /** A bootstrapping attempt that has moved away from the centre and gets below the target is reported, at once or as the draft,
      and the peer stops; of any other nothing is left. */
  lemma AfterAttempt(cfg: Config, s: System, i: nat, point: seq<nat>)
    requires ConfigOk(cfg) && Enabled(cfg, s, TryPoint(i, point))
    ensures
      var l, t := s.links[i], Step(cfg, s, TryPoint(i, point)).links[i];
      var p := l.peer;
      var value := cfg.f(p.view.frame, point);
      var r := Found(p.key, p.view, point, value);
      if point == p.view.centre || value >= Aim(cfg.ratio, p.value) then t == l
      else
        && t.peer.value == value && !t.peer.going && t.peer.due == p.due && t.peer.work == p.work
        && if l.sending then t.peer.draft == Some(r) && t.outbox == l.outbox && t.peer.unreported == p.unreported
           else t.peer.draft == p.draft && t.outbox == l.outbox + [r] && t.sending && t.peer.unreported == {}
  {
    hide Aim, PointOk;
  }

  /** What has not been reported for long is due; nothing else changes. */
  lemma AfterWait(cfg: Config, s: System, i: nat)
    requires ConfigOk(cfg) && Enabled(cfg, s, ReportDue(i))
    ensures
      var l, t := s.links[i], Step(cfg, s, ReportDue(i));
      && t.hub == s.hub && t.links == s.links[i := l.(peer := l.peer.(due := t.links[i].peer.due))]
      && (t.links[i].peer.due <==> l.peer.due || l.peer.unreported != {})
  {
  }

  /** A peer that finds nothing left to do only stops. */
  lemma AfterRest(cfg: Config, s: System, i: nat)
    requires ConfigOk(cfg) && Enabled(cfg, s, Rest(i))
    ensures
      var l, t := s.links[i], Step(cfg, s, Rest(i));
      t.hub == s.hub && t.links == s.links[i := l.(peer := l.peer.(going := false))]
  {
  }

  /** Once a write is through, the draft goes out as it stands, and the peer counts everything as reported, also what it has done
      since it made the draft. */
  lemma AfterWrite(cfg: Config, s: System, i: nat)
    requires ConfigOk(cfg) && Enabled(cfg, s, SendDone(i))
    ensures
      var l, t := s.links[i], Step(cfg, s, SendDone(i));
      && t.hub == s.hub
      && match l.peer.draft
         case None => t.links == s.links[i := l.(sending := false)]
         case Some(r) =>
           t.links == s.links[i := l.(peer := l.peer.(draft := None, unreported := {}), outbox := l.outbox + [r])]
  {
  }
}
