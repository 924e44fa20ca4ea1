/** What is said about the objective's values keeps to it: the server's value is that of its centre or of its best find, and
    nothing it counts as visited improves on that but what is recorded as overlooked. */
module Values {
  import opened Coefficients
  import opened Positions
  import opened Tables
  import opened Ranges
  import opened Sites
  import opened Views
  import opened Duplicates
  import opened Search
  import opened Protocol
  import opened Safety
  import opened Runs

  // ----- The target -----

  lemma ScaleMono(a: real, b: real, r: real)
    requires a <= b && r >= 0.0
    ensures a * r <= b * r
  {
  }

  lemma InverseBelowOne(r: real)
    requires r >= 1.0
    ensures 0.0 < 1.0 / r <= 1.0
  {
    var q := 1.0 / r;
    assert q * r == 1.0;
    if q <= 0.0 { ScaleMono(q, 0.0, r); }
    if q > 1.0 { ScaleMono(1.0, r, q); }
  }

  /** The target is never above the value, and follows it. */
  lemma AimFacts(r: real, a: real, b: real)
    requires r >= 1.0 && a <= b
    ensures Aim(r, a) <= a && Aim(r, a) <= Aim(r, b)
  {
    InverseBelowOne(r);
    var q := 1.0 / r;
    if a < 0.0 { ScaleMono(1.0, r, -a); ScaleMono(a, 0.0, r); } else { ScaleMono(q, 1.0, a); }
    if b < 0.0 { ScaleMono(a, b, r); } else {
      ScaleMono(0.0, b, q);
      if a >= 0.0 { ScaleMono(a, b, q); }
    }
  }

  // ----- Fair values -----

  /** None of these units improves on `value`. */
  ghost predicate Fair(cfg: Config, v: View, units: set<nat>, value: real)
    requires ConfigOk(cfg) && ViewOk(v) && Covers(v, units)
  {
    forall c :: c in units ==> Aim(cfg.ratio, value) <= cfg.f(v.frame, Where(v, c))
  }

  lemma FairLower(cfg: Config, v: View, units: set<nat>, value: real, lower: real)
    requires ConfigOk(cfg) && ViewOk(v) && Covers(v, units) && Fair(cfg, v, units, value) && lower <= value
    ensures Fair(cfg, v, units, lower)
  {
    hide Aim, Where, ViewOk, Span;
    AimFacts(cfg.ratio, lower, value);
  }

  /** A point that does not improve on `value`, or of which it is recorded that it may have been overlooked. */
  ghost predicate Passed(cfg: Config, frame: Frame, over: set<seq<nat>>, value: real, p: seq<nat>)
    requires ConfigOk(cfg)
  {
    Aim(cfg.ratio, value) <= cfg.f(frame, p) || p in over
  }

  ghost predicate FairSite(cfg: Config, g: Geometry, over: set<seq<nat>>, value: real, site: nat)
    requires ConfigOk(cfg) && GeoOk(g)
  {
    exists p :: CentreOk(g, p) && CodeOf(g, p) == site && Passed(cfg, FrameOf(g), over, value, p)
  }

  lemma PassedLower(cfg: Config, frame: Frame, over: set<seq<nat>>, more: set<seq<nat>>, value: real, lower: real, p: seq<nat>)
    requires ConfigOk(cfg) && Passed(cfg, frame, over, value, p) && lower <= value && over <= more
    ensures Passed(cfg, frame, more, lower, p)
  {
    hide Aim;
    AimFacts(cfg.ratio, lower, value);
  }

  lemma FairSiteLower(cfg: Config, g: Geometry, over: set<seq<nat>>, more: set<seq<nat>>, value: real, lower: real, site: nat)
    requires ConfigOk(cfg) && GeoOk(g) && FairSite(cfg, g, over, value, site) && lower <= value && over <= more
    ensures FairSite(cfg, g, more, lower, site)
  {
    hide Passed, FineGrid, CodeOf;
    var p :| CentreOk(g, p) && CodeOf(g, p) == site && Passed(cfg, FrameOf(g), over, value, p);
    PassedLower(cfg, FrameOf(g), over, more, value, lower, p);
  }

  /** Units around the server's centre. */
  ghost predicate AllPassed(cfg: Config, g: Geometry, centre: seq<nat>, over: set<seq<nat>>, value: real, units: set<nat>)
    requires ConfigOk(cfg) && CentreOk(g, centre) && Inside(g, units)
  {
    forall c :: c in units ==> Passed(cfg, FrameOf(g), over, value, Point(g, centre, c))
  }

  lemma AllPassedLower(cfg: Config, g: Geometry, centre: seq<nat>, over: set<seq<nat>>, more: set<seq<nat>>, value: real,
                       lower: real, units: set<nat>)
    requires ConfigOk(cfg) && CentreOk(g, centre) && Inside(g, units) && AllPassed(cfg, g, centre, over, value, units)
    requires lower <= value && over <= more
    ensures AllPassed(cfg, g, centre, more, lower, units)
  {
    hide Passed, CentreOk, Point, Total;
    forall c | c in units ensures Passed(cfg, FrameOf(g), more, lower, Point(g, centre, c)) {
      PassedLower(cfg, FrameOf(g), over, more, value, lower, Point(g, centre, c));
    }
  }

  /** A lost find is a unit around a centre of this box, with the value the objective has there, and was better than the target
      for that centre. */
  ghost predicate LossOk(cfg: Config, g: Geometry, loss: Loss)
    requires ConfigOk(cfg)
  {
    && CentreOk(g, loss.centre) && loss.unit < Total(g)
    && loss.value == cfg.f(FrameOf(g), Point(g, loss.centre, loss.unit))
    && loss.value < Aim(cfg.ratio, cfg.f(FrameOf(g), loss.centre))
  }

  /** What was overlooked, was so on account of a lost find: it does not improve on that. */
  ghost predicate Behind(cfg: Config, frame: Frame, lost: set<Loss>, p: seq<nat>)
    requires ConfigOk(cfg)
  {
    exists loss :: loss in lost && Aim(cfg.ratio, loss.value) <= cfg.f(frame, p)
  }

  ghost predicate RecordOk(cfg: Config, h: Hub)
    requires ConfigOk(cfg)
  {
    && (forall loss :: loss in h.lost ==> LossOk(cfg, h.search.geo, loss))
    && (forall p :: p in h.overlooked ==> Behind(cfg, FrameOf(h.search.geo), h.lost, p))
  }

  /** The server: its value is that of the centre, or of the best find; nothing visited or reported improves on it but what was
      overlooked. */
  ghost predicate HubValue(cfg: Config, h: Hub)
    requires ConfigOk(cfg) && SearchOk(h)
  {
    var s := h.search;
    && RecordOk(cfg, h)
    && (!s.boot ==>
          && s.value == (if s.best.Some? then cfg.f(FrameOf(s.geo), Point(s.geo, s.centre, s.best.value))
                         else cfg.f(FrameOf(s.geo), s.centre))
          && (forall x :: x in s.visited ==> FairSite(cfg, s.geo, h.overlooked, s.value, x))
          && AllPassed(cfg, s.geo, s.centre, h.overlooked, s.value, s.accumulated)
          && (!h.phase.Recentring? ==> s.value <= h.msgValue == cfg.f(FrameOf(s.geo), s.centre)))
  }

  // ----- What the server will have heard -----

  /** The server's value after a report. */
  function After(k: nat, v: real, r: Report): real {
    if r.Done? && r.key == k && r.find.Some? && r.value < v then r.value else v
  }

  function AfterAll(k: nat, v: real, rs: seq<Report>): real
    decreases |rs|
  {
    if rs == [] then v else AfterAll(k, After(k, v, rs[0]), rs[1..])
  }

  /** All of the report's points are recorded as overlooked. */
  ghost predicate Excused(over: set<seq<nat>>, r: Report) {
    r.Done? && ViewOk(r.view) && Covers(r.view, r.units) && forall c :: c in r.units ==> Where(r.view, c) in over
  }

  /** A report without a find only repeats a value the server has heard of by then, or it is excused. */
  ghost predicate Heard(over: set<seq<nat>>, k: nat, v: real, rs: seq<Report>)
    decreases |rs|
  {
    rs != [] ==>
      && (rs[0].Done? && rs[0].key == k && rs[0].find.None? ==> v <= rs[0].value || Excused(over, rs[0]))
      && Heard(over, k, After(k, v, rs[0]), rs[1..])
  }

  lemma {:induction false} HeardLower(over: set<seq<nat>>, more: set<seq<nat>>, k: nat, v: real, w: real, rs: seq<Report>)
    requires w <= v && over <= more
    ensures AfterAll(k, w, rs) <= AfterAll(k, v, rs) <= v
    ensures Heard(over, k, v, rs) ==> Heard(more, k, w, rs)
    decreases |rs|
  {
    hide Where, ViewOk, Span;
    if rs != [] { HeardLower(over, more, k, After(k, v, rs[0]), After(k, w, rs[0]), rs[1..]); }
  }

  lemma {:induction false} HeardMore(over: set<seq<nat>>, k: nat, v: real, rs: seq<Report>, r: Report)
    requires Heard(over, k, v, rs)
    requires r.Done? && r.key == k && r.find.None? ==> AfterAll(k, v, rs) <= r.value || Excused(over, r)
    ensures Heard(over, k, v, rs + [r]) && AfterAll(k, v, rs + [r]) == After(k, AfterAll(k, v, rs), r)
    decreases |rs|
  {
    hide Excused;
    if rs == [] {
      assert rs + [r] == [r] && [r][1..] == [];
    } else {
      assert (rs + [r])[1..] == rs[1..] + [r];
      HeardMore(over, k, After(k, v, rs[0]), rs[1..], r);
    }
  }

  lemma {:induction false} HeardOlder(over: set<seq<nat>>, k: nat, v: real, rs: seq<Report>)
    requires forall i :: 0 <= i < |rs| ==> rs[i].key != k
    ensures Heard(over, k, v, rs) && AfterAll(k, v, rs) == v
    decreases |rs|
  {
    hide Excused;
    if rs != [] { HeardOlder(over, k, After(k, v, rs[0]), rs[1..]); }
  }

  lemma {:induction false} HeardFront(over: set<seq<nat>>, k: nat, v: real, rs: seq<Report>, r: Report)
    requires Heard(over, k, v, rs + [r])
    ensures Heard(over, k, v, rs)
    decreases |rs|
  {
    hide Excused;
    if rs != [] {
      assert (rs + [r])[1..] == rs[1..] + [r];
      HeardFront(over, k, After(k, v, rs[0]), rs[1..], r);
    }
  }

  function Queue(l: Link): seq<Report> {
    l.outbox + if l.peer.draft.Some? then [l.peer.draft.value] else []
  }

  // ----- Links -----

  /** What a report says is what the objective gives. */
  ghost predicate Honest(cfg: Config, h: Hub, r: Report)
    requires ConfigOk(cfg) && SearchOk(h) && ReportOk(h, r)
  {
    match r
    case Found(key, view, point, value) => value == cfg.f(view.frame, point)
    case Done(key, view, value, find, units) =>
      key == h.key && Handing(h) ==>
        && Fair(cfg, view, units, value)
        && (find.Some? ==>
              value == cfg.f(view.frame, Where(view, find.value)) < Aim(cfg.ratio, cfg.f(view.frame, view.centre)))
  }

  /** A peer with the current key that is not gagged knows of no value below what the server will have heard; one that is
      gagged keeps the value of a lost find. Its units do not improve on its value. */
  ghost predicate PeerValue(cfg: Config, h: Hub, l: Link)
    requires ConfigOk(cfg) && SearchOk(h) && LinkSafe(h, l)
  {
    Handing(h) ==>
      && Heard(h.overlooked, h.key, h.search.value, Queue(l))
      && (l.peer.key == h.key ==>
            && ViewOk(l.peer.view)
            && (!l.peer.gagged ==> AfterAll(h.key, h.search.value, Queue(l)) <= l.peer.value)
            && (l.peer.gagged ==> exists loss :: loss in h.lost && loss.value == l.peer.value)
            && (FindWaits(l) ==> l.peer.draft.value.value == l.peer.value)
            && l.peer.value <= cfg.f(l.peer.view.frame, l.peer.view.centre)
            && Covers(l.peer.view, l.peer.unreported)
            && Fair(cfg, l.peer.view, l.peer.unreported, l.peer.value))
  }

  ghost predicate MessageValue(cfg: Config, h: Hub, m: Message) {
    Handing(h) && !m.Work? && m.key == h.key ==>
      h.search.value <= m.value == cfg.f(FrameOf(h.search.geo), h.search.centre)
  }

  ghost predicate LinkValue(cfg: Config, h: Hub, l: Link)
    requires ConfigOk(cfg) && SearchOk(h) && LinkSafe(h, l)
  {
    && PeerValue(cfg, h, l)
    && (forall k :: 0 <= k < |l.inbox| ==> MessageValue(cfg, h, l.inbox[k]))
    && (forall k :: 0 <= k < |l.outbox| ==> ReportOk(h, l.outbox[k]) && Honest(cfg, h, l.outbox[k]))
    && (l.peer.draft.Some? ==> ReportOk(h, l.peer.draft.value) && Honest(cfg, h, l.peer.draft.value))
  }

  ghost predicate SystemValue(cfg: Config, s: System)
    requires ConfigOk(cfg) && SystemInv(cfg, s)
  {
    !s.hub.phase.Converged? ==>
      HubValue(cfg, s.hub) && forall i :: i in s.links ==> LinkValue(cfg, s.hub, s.links[i])
  }

  // ----- Changes of the server -----

  /** The parts of a safe link. */
  lemma SafeParts(h: Hub, l: Link)
    requires SearchOk(h) && LinkSafe(h, l)
    ensures Here(h, l.peer) && PeerOk(h, l.peer)
    ensures forall k :: 0 <= k < |l.outbox| ==> ReportOk(h, l.outbox[k]) && l.outbox[k].key <= l.peer.key <= h.key
    ensures l.peer.draft.Some? ==> ReportOk(h, l.peer.draft.value) && l.peer.draft.value.key == l.peer.key
  {
    hide Inside, Known, CentreOk, Point;
    AlongHere(h, l.peer, l.inbox);
  }

  lemma {:induction false} InboxKeys(h: Hub, p: Peer, inbox: seq<Message>)
    requires SearchOk(h) && Along(h, p, inbox)
    ensures forall k :: 0 <= k < |inbox| ==> inbox[k].Work? || inbox[k].key <= h.key
    decreases |inbox|
  {
    hide Inside, Known, CentreOk, Point, Where, Span, ViewOk, Current, Ok;
    if inbox != [] {
      AlongHere(h, Apply(p, inbox[0]), inbox[1..]);
      InboxKeys(h, Apply(p, inbox[0]), inbox[1..]);
      assert forall k :: 1 <= k < |inbox| ==> inbox[k] == inbox[1..][k - 1];
    }
  }

  /** The same key, centre and phase of dealing; the value may have come down. */
  ghost predicate Descends(h: Hub, h': Hub) {
    && h'.key == h.key && h'.search.geo == h.search.geo && h'.search.centre == h.search.centre
    && h'.search.boot == h.search.boot && h'.search.value <= h.search.value && (Handing(h') ==> Handing(h))
    && h.overlooked <= h'.overlooked && h.lost <= h'.lost
  }

  lemma LinkDescends(cfg: Config, h: Hub, h': Hub, l: Link)
    requires ConfigOk(cfg) && SearchOk(h) && SearchOk(h') && Descends(h, h')
    requires LinkSafe(h, l) && LinkSafe(h', l) && LinkValue(cfg, h, l)
    ensures LinkValue(cfg, h', l)
  {
    hide Inside, Known, CentreOk, Point, Where, Span, ViewOk, Ok, Fair, ReportOk, Along, Aim;
    SafeParts(h', l);
    HeardLower(h.overlooked, h'.overlooked, h.key, h.search.value, h'.search.value, Queue(l));
  }

  /** A new key: nothing on its way carries it yet. */
  lemma LinkValueBumped(cfg: Config, h: Hub, h': Hub, l: Link, share: set<nat>)
    requires ConfigOk(cfg) && Bumped(h, h') && LinkSafe(h, l) && LinkSafe(h', l.(share := share)) && LinkValue(cfg, h, l)
    ensures LinkValue(cfg, h', l.(share := share))
  {
    hide Inside, Known, CentreOk, Point, Where, Span, ViewOk, Ok, Fair, Along, Aim, Current, Evaluated;
    SafeParts(h, l);
    SafeParts(h', l.(share := share));
    InboxKeys(h, l.peer, l.inbox);
    HeardOlder(h'.overlooked, h'.key, h'.search.value, Queue(l));
  }

  /** Sending a message that carries the centre's value. */
  lemma LinkValueSend(cfg: Config, h: Hub, l: Link, m: Message)
    requires ConfigOk(cfg) && SearchOk(h) && LinkSafe(h, l) && LinkValue(cfg, h, l)
    requires MessageValue(cfg, h, m) && LinkSafe(h, Send(cfg, h, l, m))
    ensures LinkValue(cfg, h, Send(cfg, h, l, m))
  {
    hide Inside, Known, CentreOk, Point, Where, Span, ViewOk, Ok, Fair, Along, Aim, ReportOk, Heard;
  }

  /** The share and the flags do not matter. */
  lemma LinkValueShare(cfg: Config, h: Hub, l: Link, t: Link)
    requires ConfigOk(cfg) && SearchOk(h) && LinkSafe(h, l) && LinkValue(cfg, h, l) && LinkSafe(h, t)
    requires t.peer == l.peer && t.inbox == l.inbox && t.outbox == l.outbox && t.sending == l.sending
    ensures LinkValue(cfg, h, t)
  {
    hide Inside, Known, CentreOk, Point, Where, Span, ViewOk, Ok, Fair, Along, Aim, ReportOk, Heard;
  }

  // ----- Steps of a peer -----

  lemma ValueReading(cfg: Config, h: Hub, l: Link)
    requires ConfigOk(cfg) && SearchOk(h) && h.key >= 1 && LinkSafe(h, l) && LinkValue(cfg, h, l) && l.inbox != []
    requires LinkSafe(h, l.(peer := Apply(l.peer, l.inbox[0]), inbox := l.inbox[1..]))
    ensures LinkValue(cfg, h, l.(peer := Apply(l.peer, l.inbox[0]), inbox := l.inbox[1..]))
  {
    hide LinkValue, LinkSafe, Apply, SearchOk;
    var m, q := l.inbox[0], Apply(l.peer, l.inbox[0]);
    ReadingChanges(l.peer, m);
    if q == l.peer.(work := q.work, due := q.due, going := q.going) {
      ReadSame(cfg, h, l, q);
    } else {
      ReadNew(cfg, h, l, q);
    }
  }

  lemma ReadSame(cfg: Config, h: Hub, l: Link, q: Peer)
    requires ConfigOk(cfg) && SearchOk(h) && LinkSafe(h, l) && LinkValue(cfg, h, l) && l.inbox != []
    requires q == l.peer.(work := q.work, due := q.due, going := q.going) && LinkSafe(h, l.(peer := q, inbox := l.inbox[1..]))
    ensures LinkValue(cfg, h, l.(peer := q, inbox := l.inbox[1..]))
  {
    hide Inside, Known, CentreOk, Point, Where, Span, ViewOk, Ok, ReportOk, Along, Heard, Aim, Fair, Honest,
         MessageValue, AfterAll;
    var t := l.(peer := q, inbox := l.inbox[1..]);
    SafeParts(h, t);
    assert forall k :: 0 <= k < |t.inbox| ==> t.inbox[k] == l.inbox[k + 1];
  }

  lemma ReadNew(cfg: Config, h: Hub, l: Link, q: Peer)
    requires ConfigOk(cfg) && SearchOk(h) && h.key >= 1 && LinkSafe(h, l) && LinkValue(cfg, h, l) && l.inbox != []
    requires !l.inbox[0].Work? && q.key == l.inbox[0].key && q.value == l.inbox[0].value
    requires q.unreported == {} && q.draft == None && !q.gagged
    requires LinkSafe(h, l.(peer := q, inbox := l.inbox[1..]))
    ensures LinkValue(cfg, h, l.(peer := q, inbox := l.inbox[1..]))
  {
    hide Known, CentreOk, Point, Ok, ReportOk, Along, Heard, Aim, Honest, AfterAll;
    var t := l.(peer := q, inbox := l.inbox[1..]);
    SafeParts(h, t);
    assert MessageValue(cfg, h, l.inbox[0]);
    assert forall k :: 0 <= k < |t.inbox| ==> t.inbox[k] == l.inbox[k + 1];
    HeardLower(h.overlooked, h.overlooked, h.key, h.search.value, h.search.value, Queue(t));
    if Handing(h) && l.peer.draft.Some? { HeardFront(h.overlooked, h.key, h.search.value, l.outbox, l.peer.draft.value); }
    assert l.outbox + [] == l.outbox;
  }

  lemma ReadingChanges(p: Peer, m: Message)
    ensures
      var q := Apply(p, m);
      || q == p.(work := q.work, due := q.due, going := q.going)
      || (!m.Work? && q.key == m.key && q.value == m.value && q.unreported == {} && q.draft == None && !q.gagged)
  {
  }

  /** A peer that has changed only in what it has done, with what it then has to say appended to the queue. */
  lemma PeerValueSteps(cfg: Config, h: Hub, l: Link, q: Peer, outbox: seq<Report>, sending: bool)
    requires ConfigOk(cfg) && SearchOk(h) && LinkSafe(h, l) && LinkValue(cfg, h, l)
    requires var t := l.(peer := q, outbox := outbox, sending := sending); LinkSafe(h, t) && PeerValue(cfg, h, t)
    requires forall k :: 0 <= k < |outbox| ==> ReportOk(h, outbox[k]) && Honest(cfg, h, outbox[k])
    requires q.draft.Some? ==> ReportOk(h, q.draft.value) && Honest(cfg, h, q.draft.value)
    ensures LinkValue(cfg, h, l.(peer := q, outbox := outbox, sending := sending))
  {
    hide LinkSafe, PeerValue, Honest, ReportOk, MessageValue;
  }

  /** What evaluating a unit makes of the peer's value and units. */
  lemma ProcessedFair(cfg: Config, p: Peer, c: nat)
    requires ConfigOk(cfg) && CanProcess(p, c) && Covers(p.view, p.unreported)
    requires Fair(cfg, p.view, p.unreported, p.value) && p.value <= cfg.f(p.view.frame, p.view.centre)
    ensures
      var q := Processed(cfg, p, c);
      && q.value <= p.value && Covers(q.view, q.unreported) && Fair(cfg, q.view, q.unreported, q.value)
      && (Improves(cfg, p, c) ==>
            q.value == cfg.f(q.view.frame, Where(q.view, c)) < Aim(cfg.ratio, cfg.f(q.view.frame, q.view.centre)))
  {
    hide Where, Aim, ViewOk, Span;
    var q := Processed(cfg, p, c);
    var x := cfg.f(p.view.frame, Where(p.view, c));
    AimFacts(cfg.ratio, p.value, cfg.f(p.view.frame, p.view.centre));
    AimFacts(cfg.ratio, p.value, p.value);
    AimFacts(cfg.ratio, x, x);
    if Improves(cfg, p, c) { AimFacts(cfg.ratio, x, p.value); }
    FairLower(cfg, p.view, p.unreported, p.value, q.value);
  }

  /** Evaluating a unit without a report. */
  lemma ValueQuiet(cfg: Config, h: Hub, l: Link, c: nat)
    requires ConfigOk(cfg) && SearchOk(h) && LinkSafe(h, l) && LinkValue(cfg, h, l) && CanProcess(l.peer, c)
    requires LinkSafe(h, l.(peer := Processed(cfg, l.peer, c))) && !Improves(cfg, l.peer, c)
    ensures LinkValue(cfg, h, l.(peer := Processed(cfg, l.peer, c)))
  {
    hide Where, Aim, Along, ReportOk, Honest, Heard, AfterAll, Improves, Fair, Known, Ok, CanProcess, ViewOk, Span;
    var q := Processed(cfg, l.peer, c);
    SafeParts(h, l.(peer := q));
    if Handing(h) && l.peer.key == h.key { ProcessedFair(cfg, l.peer, c); }
    PeerValueSteps(cfg, h, l, q, l.outbox, l.sending);
  }

  /** The report about a unit is honest, and no news to the server unless it is a find. */
  lemma ReportHonest(cfg: Config, h: Hub, p: Peer, c: nat)
    requires ConfigOk(cfg) && SearchOk(h) && CanProcess(p, c) && ReportOk(h, DoneReport(cfg, p, c))
    requires Handing(h) && p.key == h.key ==>
               && Covers(p.view, p.unreported) && Fair(cfg, p.view, p.unreported, p.value)
               && p.value <= cfg.f(p.view.frame, p.view.centre)
    ensures Honest(cfg, h, DoneReport(cfg, p, c))
  {
    hide Where, Aim, ReportOk, Improves, Fair, Known, Ok, CanProcess, ViewOk, Span;
    if Handing(h) && p.key == h.key { ProcessedFair(cfg, p, c); }
  }

  /** The queue with a report about a unit at its end, in place of the draft if there was one. */
  lemma QueueMore(cfg: Config, h: Hub, l: Link, c: nat)
    requires ConfigOk(cfg) && SearchOk(h) && LinkSafe(h, l) && LinkValue(cfg, h, l) && CanProcess(l.peer, c)
    requires Handing(h) && l.peer.key == h.key && Reports(cfg, l.peer, c)
    requires GaggedAfter(cfg, l, c) ==> Excused(h.overlooked, DoneReport(cfg, l.peer, c))
    ensures
      var r := DoneReport(cfg, l.peer, c);
      && Heard(h.overlooked, h.key, h.search.value, l.outbox + [r])
      && (!GaggedAfter(cfg, l, c) ==> AfterAll(h.key, h.search.value, l.outbox + [r]) <= r.value)
  {
    hide Where, Aim, ReportOk, Honest, Heard, AfterAll, Improves, Fair, Known, Ok, Along, ViewOk, Span, Excused, CanProcess;
    var r, v := DoneReport(cfg, l.peer, c), h.search.value;
    ProcessedFair(cfg, l.peer, c);
    assert l.outbox + [] == l.outbox;
    if l.peer.draft.Some? {
      var d := l.peer.draft.value;
      HeardFront(h.overlooked, h.key, v, l.outbox, d);
      HeardLast(h.key, v, l.outbox, d);
    }
    HeardMore(h.overlooked, h.key, v, l.outbox, r);
  }

  lemma {:induction false} HeardLast(k: nat, v: real, rs: seq<Report>, r: Report)
    ensures AfterAll(k, v, rs + [r]) == After(k, AfterAll(k, v, rs), r)
    decreases |rs|
  {
    if rs == [] {
      assert rs + [r] == [r] && [r][1..] == [];
    } else {
      assert (rs + [r])[1..] == rs[1..] + [r];
      HeardLast(k, After(k, v, rs[0]), rs[1..], r);
    }
  }

  /** What the server records of the step: a gagged peer's report is excused, and its value is that of a loss. */
  ghost predicate Recorded(cfg: Config, h: Hub, l: Link, c: nat)
    requires CanProcess(l.peer, c) && ConfigOk(cfg)
  {
    Handing(h) && l.peer.key == h.key && GaggedAfter(cfg, l, c) ==>
      && (Reports(cfg, l.peer, c) ==> Excused(h.overlooked, DoneReport(cfg, l.peer, c)))
      && exists loss :: loss in h.lost && loss.value == l.peer.value
  }

  /** Evaluating a unit with a report. */
  lemma ValueReporting(cfg: Config, h: Hub, l: Link, c: nat)
    requires ConfigOk(cfg) && SearchOk(h) && LinkSafe(h, l) && LinkValue(cfg, h, l) && CanProcess(l.peer, c)
    requires Reports(cfg, l.peer, c) && Recorded(cfg, h, l, c) && LinkSafe(h, Process(cfg, l, c))
    ensures LinkValue(cfg, h, Process(cfg, l, c))
  {
    hide Where, Aim, ReportOk, Honest, Heard, AfterAll, Improves, Fair, Known, Ok, Along, CanProcess, ViewOk, Span, Excused,
         GaggedAfter, Reports;
    var t := Process(cfg, l, c);
    var r, q := DoneReport(cfg, l.peer, c), Processed(cfg, l.peer, c);
    SafeParts(h, t);
    assert ReportOk(h, r) by {
      if !l.sending { assert t.outbox[|l.outbox|] == r; }
    }
    ReportHonest(cfg, h, l.peer, c);
    if Handing(h) {
      if l.peer.key == h.key {
        QueueMore(cfg, h, l, c);
        ProcessedFair(cfg, l.peer, c);
        NothingFair(cfg, q.view, q.value);
        GaggedKeeps(cfg, l, c);
      } else {
        OldQueue(h, t);
        HeardOlder(h.overlooked, h.key, h.search.value, Queue(t));
      }
    }
    assert l.outbox + [r] + [] == l.outbox + [r];
    PeerValueSteps(cfg, h, l, t.peer, t.outbox, t.sending);
  }

  /** Whoever is gagged keeps its value. */
  lemma GaggedKeeps(cfg: Config, l: Link, c: nat)
    requires ConfigOk(cfg) && CanProcess(l.peer, c)
    ensures GaggedAfter(cfg, l, c) ==> Processed(cfg, l.peer, c).value == l.peer.value
  {
    hide CanProcess, Stands, Aim;
  }

  lemma NothingFair(cfg: Config, v: View, value: real)
    requires ConfigOk(cfg) && ViewOk(v)
    ensures Covers(v, {}) && Fair(cfg, v, {}, value)
  {
  }

  lemma OldQueue(h: Hub, l: Link)
    requires SearchOk(h) && LinkSafe(h, l) && l.peer.key != h.key
    ensures forall i :: 0 <= i < |Queue(l)| ==> Queue(l)[i].key != h.key
  {
    hide CentreOk, ReportOk, Known, Ok, Along;
    SafeParts(h, l);
  }

  lemma ValueBootstrap(cfg: Config, h: Hub, l: Link, point: seq<nat>)
    requires ConfigOk(cfg) && SearchOk(h) && h.key >= 1 && LinkSafe(h, l) && LinkValue(cfg, h, l)
    requires CanBootstrap(l.peer, point) && LinkSafe(h, Bootstrap(cfg, l, point))
    ensures LinkValue(cfg, h, Bootstrap(cfg, l, point))
  {
    hide CentreOk, Where, Span, Aim, Heard, AfterAll, Fair, Known, Ok, Along, Inside, Evaluated, PointOk;
    var t := Bootstrap(cfg, l, point);
    SafeParts(h, l);
    SafeParts(h, t);
    if Handing(h) {
      OldQueue(h, t);
      HeardOlder(h.overlooked, h.key, h.search.value, Queue(t));
    }
    PeerValueSteps(cfg, h, l, t.peer, t.outbox, t.sending);
  }

  lemma ValueSent(cfg: Config, h: Hub, l: Link)
    requires ConfigOk(cfg) && SearchOk(h) && LinkSafe(h, l) && LinkValue(cfg, h, l)
    requires LinkSafe(h, Sent(l))
    ensures LinkValue(cfg, h, Sent(l))
  {
    hide CentreOk, Where, Span, Aim, Heard, AfterAll, Known, Ok, Along, ReportOk, Honest, ViewOk;
    var t := Sent(l);
    SafeParts(h, t);
    assert Queue(t) == Queue(l);
    PeerValueSteps(cfg, h, l, t.peer, t.outbox, t.sending);
  }

  lemma ValueDue(cfg: Config, h: Hub, l: Link)
    requires ConfigOk(cfg) && SearchOk(h) && LinkSafe(h, l) && LinkValue(cfg, h, l)
    requires LinkSafe(h, Due(l))
    ensures LinkValue(cfg, h, Due(l))
  {
    hide CentreOk, Where, Span, Aim, Heard, AfterAll, Known, Ok, Along, ReportOk, Honest, ViewOk, Fair;
    var t := Due(l);
    SafeParts(h, t);
    PeerValueSteps(cfg, h, l, t.peer, t.outbox, t.sending);
  }

  lemma ValueRest(cfg: Config, h: Hub, l: Link)
    requires ConfigOk(cfg) && SearchOk(h) && LinkSafe(h, l) && LinkValue(cfg, h, l)
    requires LinkSafe(h, l.(peer := Resting(l.peer)))
    ensures LinkValue(cfg, h, l.(peer := Resting(l.peer)))
  {
    hide CentreOk, Where, Span, Aim, Heard, AfterAll, Known, Ok, Along, ReportOk, Honest, ViewOk, Fair;
    var t := l.(peer := Resting(l.peer));
    SafeParts(h, t);
    PeerValueSteps(cfg, h, l, t.peer, t.outbox, t.sending);
  }

  // ----- Reports at the server -----

  /** A report that is taken from the queue and does not bring the value down any more. */
  lemma TailValue(cfg: Config, h: Hub, l: Link, t: Link)
    requires ConfigOk(cfg) && SearchOk(h) && LinkSafe(h, l) && LinkValue(cfg, h, l) && LinkSafe(h, t) && l.outbox != []
    requires t.peer == l.peer && t.inbox == l.inbox && t.outbox == l.outbox[1..] && t.sending == l.sending
    requires After(h.key, h.search.value, l.outbox[0]) == h.search.value
    ensures LinkValue(cfg, h, t)
  {
    hide CentreOk, Where, Span, Aim, Known, Ok, Along, ReportOk, Honest, Fair, MessageValue, After, Excused, ViewOk;
    SafeParts(h, t);
    assert Queue(l)[0] == l.outbox[0] && Queue(l)[1..] == Queue(t);
    assert forall k :: 0 <= k < |t.outbox| ==> t.outbox[k] == l.outbox[k + 1];
  }

  /** The units of an accepted report: none improves on the server's value then, or it was overlooked. */
  lemma UnitsPassed(cfg: Config, h: Hub, r: Report, v: real)
    requires ConfigOk(cfg) && HubInv(h) && h.phase.Idle? && !h.search.boot && ReportOk(h, r) && Honest(cfg, h, r)
    requires r.Done? && r.key == h.key && (v <= r.value || Excused(h.overlooked, r))
    ensures CentreOk(h.search.geo, h.search.centre) && Inside(h.search.geo, r.units)
    ensures AllPassed(cfg, h.search.geo, h.search.centre, h.overlooked, v, r.units)
  {
    hide FineGrid, InRange, Point, Aim, Along, Inv, Settled, VisitedOk, Where, Span, Total, Made, ViewOk, Longer;
    var s := h.search;
    UnitsEvaluated(h, r);
    forall c | c in r.units ensures Passed(cfg, FrameOf(s.geo), h.overlooked, v, Point(s.geo, s.centre, c)) {
      SameWhere(h, r.view, c);
      AimFacts(cfg.ratio, if v <= r.value then v else r.value, r.value);
    }
  }

  /** A report with the current key, accepted. */
  lemma DoneValue(cfg: Config, h: Hub, l: Link, idle: bool)
    requires ConfigOk(cfg) && HubInv(h) && HubValue(cfg, h) && h.phase.Idle? && !h.search.boot
    requires LinkSafe(h, l) && LinkValue(cfg, h, l) && l.outbox != [] && l.outbox[0].Done? && l.outbox[0].key == h.key
    ensures
      var r := l.outbox[0];
      var h' := h.(search := OnPeerReport(h.search, r.value, r.find, r.units, idle));
      SearchOk(h') ==>
        && HubValue(cfg, h') && Descends(h, h') && After(h'.key, h'.search.value, r) == h'.search.value
  {
    hide FineGrid, InRange, Point, Aim, Known, Along, FairSite, Inv, Settled, VisitedOk, Fair, Passed, Where, Span,
         Excused, Made, LossOk, Behind, AllPassed, Total, Longer;
    var r, s := l.outbox[0], h.search;
    SafeParts(h, l);
    assert Honest(cfg, h, r) && ReportOk(h, r) && Current(h, r.view);
    assert Queue(l)[0] == r;
    var h' := h.(search := OnPeerReport(h.search, r.value, r.find, r.units, idle));
    if SearchOk(h') {
      var v := h'.search.value;
      assert v <= s.value;
      UnitsPassed(cfg, h, r, v);
      forall x | x in s.visited ensures FairSite(cfg, s.geo, h.overlooked, v, x) {
        FairSiteLower(cfg, s.geo, h.overlooked, h.overlooked, s.value, v, x);
      }
      AllPassedLower(cfg, s.geo, s.centre, h.overlooked, h.overlooked, s.value, v, s.accumulated);
      BothPassed(cfg, s.geo, s.centre, h.overlooked, v, s.accumulated, r.units);
      FindValue(cfg, h, r);
    }
  }

  /** A find's value is what the objective has at its point. */
  lemma FindValue(cfg: Config, h: Hub, r: Report)
    requires ConfigOk(cfg) && HubInv(h) && h.phase.Idle? && !h.search.boot && ReportOk(h, r) && Honest(cfg, h, r)
    requires r.Done? && r.key == h.key
    ensures CentreOk(h.search.geo, h.search.centre)
    ensures r.find.Some? ==>
              r.find.value < Total(h.search.geo)
              && r.value == cfg.f(FrameOf(h.search.geo), Point(h.search.geo, h.search.centre, r.find.value))
  {
    hide FineGrid, InRange, Point, Aim, Inv, Settled, VisitedOk, Fair, Where, Span, Total, Made, ViewOk, Longer;
    UnitsEvaluated(h, r);
    if r.find.Some? { SameWhere(h, r.view, r.find.value); }
  }

  lemma BothPassed(cfg: Config, g: Geometry, centre: seq<nat>, over: set<seq<nat>>, value: real, a: set<nat>, b: set<nat>)
    requires ConfigOk(cfg) && CentreOk(g, centre) && Inside(g, a) && Inside(g, b)
    requires AllPassed(cfg, g, centre, over, value, a) && AllPassed(cfg, g, centre, over, value, b)
    ensures Inside(g, a + b) && AllPassed(cfg, g, centre, over, value, a + b)
  {
    hide CentreOk, Point, Passed, Total;
  }

  lemma BootValue(cfg: Config, h: Hub, r: Report)
    requires ConfigOk(cfg) && HubInv(h) && HubValue(cfg, h) && h.phase.Idle?
    requires ReportOk(h, r) && r.Found? && r.key == h.key && Honest(cfg, h, r)
    requires CanBoot(h, r) && SearchOk(AfterBoot(h, r))
    ensures HubValue(cfg, AfterBoot(h, r))
  {
    hide Point, Covered, Distinct, Site, Total, SkipsSafely, CodeOf, FineGrid, Upto, FirstWork, Aim, Settled, LossOk,
         Behind, Made;
    var s := h.search;
    assert BootCentre(s.geo, s.centre, r.point) == r.point;
    AimFacts(cfg.ratio, r.value, r.value);
    FairSiteBy(cfg, s.geo, h.overlooked, r.value, r.point);
  }

  lemma FairSiteBy(cfg: Config, g: Geometry, over: set<seq<nat>>, value: real, p: seq<nat>)
    requires ConfigOk(cfg) && CentreOk(g, p) && Passed(cfg, FrameOf(g), over, value, p)
    ensures FairSite(cfg, g, over, value, CodeOf(g, p))
  {
  }

  // ----- Syncs -----

  lemma AbsorbFair(cfg: Config, h: Hub, idle: bool)
    requires ConfigOk(cfg) && HubInv(h) && HubValue(cfg, h) && h.phase.Idle? && !h.search.boot
    ensures
      var a := Absorb(h.search, idle);
      && (forall x :: x in a.visited ==> FairSite(cfg, a.geo, h.overlooked, a.value, x)) && a.value == h.search.value
  {
    hide Point, Passed, FairSite, Inv, Settled, VisitedOk, FineGrid, InRange, CodeOf, RecordOk, Made;
    var s := h.search;
    forall c | c in s.accumulated ensures FairSite(cfg, s.geo, h.overlooked, s.value, Site(s.geo, s.centre, c)) {
      PointIsCentreOk(s.geo, s.centre, c);
      FairSiteBy(cfg, s.geo, h.overlooked, s.value, Point(s.geo, s.centre, c));
    }
  }

  lemma StartValue(cfg: Config, s: System, idle: bool)
    requires ConfigOk(cfg) && HubInv(s.hub) && HubValue(cfg, s.hub) && s.hub.phase.Idle? && !s.hub.search.boot
    requires SearchOk(StartSync(s, idle).hub)
    ensures HubValue(cfg, StartSync(s, idle).hub)
  {
    hide Point, Passed, FairSite, Inv, Settled, VisitedOk, FineGrid, InRange, CodeOf, FirstWork, Total, LossOk, Behind, Made;
    AbsorbFair(cfg, s.hub, idle);
    AbsorbEmpties(s.hub.search, idle);
  }

  lemma AbsorbEmpties(s: State, idle: bool)
    requires Ok(s)
    ensures Absorb(s, idle).accumulated == {}
  {
    hide Point, Site, FineGrid, InRange, Total;
  }

  /** While nothing is handed out under the current key, a link need only be honest about points. */
  lemma LinkNotHanding(cfg: Config, h: Hub, h': Hub, l: Link, t: Link)
    requires ConfigOk(cfg) && SearchOk(h) && SearchOk(h') && LinkSafe(h, l) && LinkValue(cfg, h, l) && LinkSafe(h', t)
    requires !Handing(h') && t.peer == l.peer && t.inbox == l.inbox && t.outbox == l.outbox
    ensures LinkValue(cfg, h', t)
  {
    hide CentreOk, Where, Aim, Known, Ok, Along, Fair, Heard, ReportOk, ViewOk, Span;
    SafeParts(h', t);
  }

  lemma AdvancedValue(cfg: Config, h: Hub, done: Hub)
    requires ConfigOk(cfg) && HubInv(h) && HubValue(cfg, h) && (h.phase.Advancing? || h.phase.Recentring?)
    requires Advanced(h).level < h.search.geo.levels
    requires done == h.(search := Advanced(h).(redistribute := false), phase := Idle)
    ensures SearchOk(done) && h.phase.Advancing? ==> HubValue(cfg, done) && Descends(h, done)
    ensures SearchOk(Completed(done)) && h.phase.Recentring? ==> HubValue(cfg, Completed(done))
  {
    hide Point, Passed, FairSite, FineGrid, InRange, CodeOf, Advance, Inv, Covered, Clean, VisitedOk, Total, LossOk,
         Behind, Made;
    AdvanceSettles(h.search);
    AdvanceKeepsList(h.search);
  }

  // ----- Systems -----

  lemma SafeOf(cfg: Config, s: System)
    requires SystemInv(cfg, s) && !s.hub.phase.Converged?
    ensures HubInv(s.hub) && SearchOk(s.hub) && s.hub.key >= 1 && Ready(s.hub)
    ensures forall i :: i in s.links ==> LinkInv(cfg, s.hub, s.links[i]) && LinkSafe(s.hub, s.links[i])
  {
    hide Ok, Along, PeerOk, ReportsOk, ShareOk, CaughtUp, VisitedOk, Inv, Settled;
  }

  /** More has been evaluated, and more recorded. */
  ghost predicate Grown(h: Hub, h': Hub) {
    && h' == h.(evaluated := h'.evaluated, lost := h'.lost, overlooked := h'.overlooked)
    && h.evaluated <= h'.evaluated && h.lost <= h'.lost && h.overlooked <= h'.overlooked
  }

  lemma GrownValue(cfg: Config, h: Hub, h': Hub)
    requires ConfigOk(cfg) && SearchOk(h) && HubValue(cfg, h) && Grown(h, h') && RecordOk(cfg, h')
    ensures SearchOk(h') && HubValue(cfg, h') && Descends(h, h')
  {
    hide Passed, FairSite, LossOk, Behind, Total, Point, FineGrid, InRange, AllPassed;
    var s := h.search;
    if !s.boot {
      forall x | x in s.visited ensures FairSite(cfg, s.geo, h'.overlooked, s.value, x) {
        FairSiteLower(cfg, s.geo, h.overlooked, h'.overlooked, s.value, s.value, x);
      }
      AllPassedLower(cfg, s.geo, s.centre, h.overlooked, h'.overlooked, s.value, s.value, s.accumulated);
    }
  }

  lemma SameRecord(cfg: Config, h: Hub, h': Hub)
    requires ConfigOk(cfg) && RecordOk(cfg, h) && h'.search.geo == h.search.geo && h'.lost == h.lost
    requires h'.overlooked == h.overlooked
    ensures RecordOk(cfg, h')
  {
  }

  /** The find that is written over was one, around the server's centre. */
  lemma LostIs(cfg: Config, h: Hub, l: Link, c: nat)
    requires ConfigOk(cfg) && SearchOk(h) && LinkSafe(h, l) && LinkValue(cfg, h, l) && CanProcess(l.peer, c)
    requires Handing(h) && l.peer.key == h.key && Overwrites(cfg, l, c)
    ensures LossOk(cfg, h.search.geo, Loss(l.peer.view.centre, l.peer.draft.value.find.value, l.peer.draft.value.value))
    ensures l.peer.draft.value.value == l.peer.value
  {
    hide FineGrid, InRange, Point, Where, Span, ViewOk, Longer, Total, Aim, Along, Heard, AfterAll, Fair, CanProcess,
         Improves, Reports;
    var r := l.peer.draft.value;
    SafeParts(h, l);
    assert ReportOk(h, r) && Honest(cfg, h, r);
    assert r.view.centre == h.search.centre == l.peer.view.centre;
    assert r.find.value in r.units;
    SameWhere(h, r.view, r.find.value);
  }

  /** What the server records of a unit evaluated is as it should be. */
  lemma StepRecords(cfg: Config, h: Hub, h': Hub, l: Link, c: nat)
    requires ConfigOk(cfg) && SearchOk(h) && HubValue(cfg, h) && LinkSafe(h, l) && LinkValue(cfg, h, l) && CanProcess(l.peer, c)
    requires Grown(h, h') && h'.lost == h.lost + LostNow(cfg, h, l, c)
    requires h'.overlooked == h.overlooked + OverlookedNow(cfg, h, l, c)
    ensures RecordOk(cfg, h') && Recorded(cfg, h', l, c)
  {
    hide FineGrid, InRange, Point, Where, Span, ViewOk, Total, Aim, Along, Heard, AfterAll, Fair, CanProcess, Improves,
         Reports, Overwrites, LossOk, Behind, Passed, FairSite, AllPassed, Honest, ReportOk, GaggedAfter, Current, Ok;
    var g, p := h.search.geo, l.peer;
    if Handing(h) && p.key == h.key {
      if Overwrites(cfg, l, c) { LostIs(cfg, h, l, c); }
      if GaggedAfter(cfg, l, c) {
        var loss := GagLoss(cfg, h, h', l, c);
        ProcessedFair(cfg, p, c);
        GaggedKeeps(cfg, l, c);
        LinkFrame(h, l);
        BehindLoss(cfg, h, h', l, c, loss);
      }
    }
    forall q | q in h.overlooked ensures Behind(cfg, FrameOf(g), h'.lost, q) {
      BehindMore(cfg, FrameOf(g), h.lost, h'.lost, q);
    }
  }

  lemma LinkFrame(h: Hub, l: Link)
    requires SearchOk(h) && LinkSafe(h, l) && l.peer.key == h.key
    ensures l.peer.view.frame == FrameOf(h.search.geo)
  {
    hide ViewOk, Ok, Longer, Known;
    AlongHere(h, l.peer, l.inbox);
  }

  lemma GagLoss(cfg: Config, h: Hub, h': Hub, l: Link, c: nat) returns (loss: Loss)
    requires ConfigOk(cfg) && SearchOk(h) && LinkSafe(h, l) && LinkValue(cfg, h, l) && CanProcess(l.peer, c)
    requires Grown(h, h') && h'.lost == h.lost + LostNow(cfg, h, l, c)
    requires Handing(h) && l.peer.key == h.key && GaggedAfter(cfg, l, c)
    ensures loss in h'.lost && loss.value == l.peer.value
  {
    hide Where, Span, ViewOk, Aim, Along, Heard, AfterAll, Fair, CanProcess, Improves, Reports, LossOk, Honest,
         ReportOk, Current, Ok;
    if Overwrites(cfg, l, c) {
      LostIs(cfg, h, l, c);
      loss := Loss(l.peer.view.centre, l.peer.draft.value.find.value, l.peer.draft.value.value);
      assert loss in LostNow(cfg, h, l, c);
    } else {
      loss :| loss in h.lost && loss.value == l.peer.value;
    }
  }

  lemma BehindLoss(cfg: Config, h: Hub, h': Hub, l: Link, c: nat, loss: Loss)
    requires ConfigOk(cfg) && SearchOk(h) && CanProcess(l.peer, c) && Handing(h) && l.peer.key == h.key
    requires l.peer.view.frame == FrameOf(h.search.geo)
    requires loss in h'.lost && loss.value == l.peer.value
    requires
      var q := Processed(cfg, l.peer, c);
      q.value == l.peer.value && Covers(q.view, q.unreported) && Fair(cfg, q.view, q.unreported, q.value)
    ensures forall x :: x in OverlookedNow(cfg, h, l, c) ==> Behind(cfg, FrameOf(h.search.geo), h'.lost, x)
    ensures Reports(cfg, l.peer, c) && GaggedAfter(cfg, l, c)
              && OverlookedNow(cfg, h, l, c) <= h'.overlooked ==>
              Excused(h'.overlooked, DoneReport(cfg, l.peer, c))
  {
    hide FineGrid, InRange, Where, Span, Total, Aim, Improves, Reports, GaggedAfter, Known, Ok;
    var q := Processed(cfg, l.peer, c);
    assert q.view == l.peer.view && q.unreported == l.peer.unreported + {c};
    assert q.view.frame == FrameOf(h.search.geo);
  }

  lemma BehindMore(cfg: Config, frame: Frame, lost: set<Loss>, more: set<Loss>, p: seq<nat>)
    requires ConfigOk(cfg) && Behind(cfg, frame, lost, p) && lost <= more
    ensures Behind(cfg, frame, more, p)
  {
  }

  /** One link changes, under a server that has at most evaluated and recorded more. */
  lemma ValueOneLink(cfg: Config, s: System, t: System, i: nat)
    requires ConfigOk(cfg) && SystemInv(cfg, s) && SystemValue(cfg, s) && SystemInv(cfg, t)
    requires !s.hub.phase.Converged? && i in t.links && i in s.links
    requires Grown(s.hub, t.hub) && t.links == s.links[i := t.links[i]]
    requires SearchOk(t.hub) && HubValue(cfg, t.hub) && Descends(s.hub, t.hub)
    requires LinkSafe(t.hub, t.links[i]) && LinkValue(cfg, t.hub, t.links[i])
    ensures SystemValue(cfg, t)
  {
    hide LinkSafe, LinkValue, HubInv, SearchOk, CaughtUp, HubValue, Descends;
    SafeOf(cfg, s);
    SafeOf(cfg, t);
    forall j | j in t.links ensures LinkValue(cfg, t.hub, t.links[j]) {
      if j != i { LinkDescends(cfg, s.hub, t.hub, s.links[j]); }
    }
  }

  lemma PeerStepValue(cfg: Config, s: System, e: Event)
    requires ConfigOk(cfg) && SystemInv(cfg, s) && SystemValue(cfg, s) && Enabled(cfg, s, e)
    requires e.Leave? || e.WriteDone? || e.ReadMessage? || e.SendDone? || e.ReportDue? || e.Rest?
    requires SystemInv(cfg, Step(cfg, s, e)) && !s.hub.phase.Converged?
    ensures SystemValue(cfg, Step(cfg, s, e))
  {
    hide LinkSafe, LinkValue, HubInv, SearchOk, CaughtUp, HubValue, SystemInv, Sent, Apply, Due, Send, Ready, LinkInv,
         MessageValue;
    var t := Step(cfg, s, e);
    SafeOf(cfg, s);
    SafeOf(cfg, t);
    assert !e.Leave? ==> e.i in t.links && LinkSafe(t.hub, t.links[e.i]);
    match e
    case Leave(i) =>
    case WriteDone(i) => WrittenValue(cfg, s.hub, s.links[i]);
    case ReadMessage(i) => ValueReading(cfg, s.hub, s.links[i]);
    case SendDone(i) => ValueSent(cfg, s.hub, s.links[i]);
    case ReportDue(i) => ValueDue(cfg, s.hub, s.links[i]);
    case Rest(i) => ValueRest(cfg, s.hub, s.links[i]);
  }

  lemma EvaluateValue(cfg: Config, s: System, i: nat, c: nat)
    requires ConfigOk(cfg) && SystemInv(cfg, s) && SystemValue(cfg, s) && Enabled(cfg, s, Evaluate(i, c))
    requires SystemInv(cfg, Step(cfg, s, Evaluate(i, c))) && !s.hub.phase.Converged?
    ensures SystemValue(cfg, Step(cfg, s, Evaluate(i, c)))
  {
    hide LinkSafe, LinkValue, HubInv, SearchOk, CaughtUp, HubValue, SystemInv, Process, Descends, RecordOk, Recorded,
         CanProcess, Stands, Ready, LinkInv, LostNow, OverlookedNow;
    var t := Step(cfg, s, Evaluate(i, c));
    SafeOf(cfg, s);
    SafeOf(cfg, t);
    assert LinkSafe(t.hub, t.links[i]);
    StepRecords(cfg, s.hub, t.hub, s.links[i], c);
    GrownValue(cfg, s.hub, t.hub);
    GrownLink(cfg, s.hub, t.hub, s.links[i]);
    LinkDescends(cfg, s.hub, t.hub, s.links[i]);
    ValueProcess(cfg, t.hub, s.links[i], c);
    ValueOneLink(cfg, s, t, i);
  }

  lemma TryValue(cfg: Config, s: System, i: nat, point: seq<nat>)
    requires ConfigOk(cfg) && SystemInv(cfg, s) && SystemValue(cfg, s) && Enabled(cfg, s, TryPoint(i, point))
    requires SystemInv(cfg, Step(cfg, s, TryPoint(i, point))) && !s.hub.phase.Converged?
    ensures SystemValue(cfg, Step(cfg, s, TryPoint(i, point)))
  {
    hide LinkSafe, LinkValue, HubInv, SearchOk, CaughtUp, SystemInv, Bootstrap, Descends, RecordOk, CanBootstrap, Ready,
         LinkInv;
    var t := Step(cfg, s, TryPoint(i, point));
    SafeOf(cfg, s);
    SafeOf(cfg, t);
    assert LinkSafe(t.hub, t.links[i]);
    SameRecord(cfg, s.hub, t.hub);
    hide HubValue;
    GrownValue(cfg, s.hub, t.hub);
    GrownLink(cfg, s.hub, t.hub, s.links[i]);
    LinkDescends(cfg, s.hub, t.hub, s.links[i]);
    ValueBootstrap(cfg, t.hub, s.links[i], point);
    ValueOneLink(cfg, s, t, i);
  }

  /** A link that has not changed is safe under the server that has evaluated more. */
  lemma GrownLink(cfg: Config, h: Hub, h': Hub, l: Link)
    requires SearchOk(h) && LinkInv(cfg, h, l) && Grown(h, h')
    ensures SearchOk(h') && LinkSafe(h', l)
  {
    hide LinkSafe, Current, Known, Ok, CaughtUp;
    assert forall v :: Current(h, v) ==> Current(h', v) by { CurrentGrown(h, h'); }
    LinkFollows(cfg, h, h', l);
  }

  lemma CurrentGrown(h: Hub, h': Hub)
    requires Grown(h, h')
    ensures forall v :: Current(h, v) ==> Current(h', v)
  {
    hide Agrees;
  }

  lemma ValueProcess(cfg: Config, h: Hub, l: Link, c: nat)
    requires ConfigOk(cfg) && SearchOk(h) && LinkSafe(h, l) && LinkValue(cfg, h, l) && CanProcess(l.peer, c)
    requires Recorded(cfg, h, l, c) && LinkSafe(h, Process(cfg, l, c))
    ensures LinkValue(cfg, h, Process(cfg, l, c))
  {
    hide LinkSafe, LinkValue, SearchOk, CanProcess, Stands, Recorded, Aim;
    if Reports(cfg, l.peer, c) {
      ValueReporting(cfg, h, l, c);
    } else {
      assert Process(cfg, l, c) == l.(peer := Processed(cfg, l.peer, c));
      ValueQuiet(cfg, h, l, c);
    }
  }

  lemma FullValue(cfg: Config, h: Hub, work: set<nat>)
    requires ConfigOk(cfg) && HubInv(h) && HubValue(cfg, h)
    ensures MessageValue(cfg, h, FullOf(h, work))
  {
    hide FairSite, RecordOk, AllPassed, Made, Inv, Settled, VisitedOk, Ok;
  }

  lemma WrittenValue(cfg: Config, h: Hub, l: Link)
    requires ConfigOk(cfg) && HubInv(h) && HubValue(cfg, h) && SearchOk(h) && Ready(h)
    requires LinkInv(cfg, h, l) && LinkSafe(h, l) && LinkValue(cfg, h, l) && LinkSafe(h, Written(cfg, h, l))
    ensures LinkValue(cfg, h, Written(cfg, h, l))
  {
    hide LinkValue, HubInv, HubValue, SearchOk, Ready, Along, PeerOk, ReportsOk, ShareOk, MessageValue;
    var t := l.(writing := false, late := false);
    LinkValueShare(cfg, h, l, t);
    if l.late {
      FullValue(cfg, h, l.share);
      LinkValueSend(cfg, h, t, FullOf(h, l.share));
    } else {
      LinkValueShare(cfg, h, l, l.(writing := false));
    }
  }

  lemma JoinValue(cfg: Config, s: System, i: nat, memory: View, host: Host, sending: bool)
    requires ConfigOk(cfg) && SystemInv(cfg, s) && SystemValue(cfg, s) && Enabled(cfg, s, Join(i, memory, host, sending))
    requires SystemInv(cfg, Step(cfg, s, Join(i, memory, host, sending)))
    ensures SystemValue(cfg, Step(cfg, s, Join(i, memory, host, sending)))
  {
    hide LinkSafe, LinkValue, HubInv, CaughtUp, SystemInv, Send, Ready, LinkInv, MessageValue, FairSite, Ok, HubValue,
         Descends;
    var t := Step(cfg, s, Join(i, memory, host, sending));
    SafeOf(cfg, s);
    SafeOf(cfg, t);
    JoinHubValue(cfg, s.hub, t.hub);
    NewcomerSame(cfg, s.hub, t.hub, memory, host, sending);
    assert t.links[i] == Newcomer(cfg, t.hub, memory, host, sending) && LinkSafe(t.hub, t.links[i]);
    forall j | j in t.links ensures LinkValue(cfg, t.hub, t.links[j]) {
      if j == i {
        NewLinkValue(cfg, t.hub, memory, host, sending);
      } else {
        LinkDescends(cfg, s.hub, t.hub, s.links[j]);
      }
    }
  }

  lemma JoinHubValue(cfg: Config, h: Hub, h': Hub)
    requires ConfigOk(cfg) && SearchOk(h) && HubValue(cfg, h) && h' == h.(search := h.search.(redistribute := true))
    ensures SearchOk(h') && HubValue(cfg, h') && Descends(h, h')
  {
    hide FairSite, CentreOk, Point, LossOk, Behind, AllPassed;
  }

  lemma NewLinkValue(cfg: Config, h: Hub, memory: View, host: Host, sending: bool)
    requires ConfigOk(cfg) && HubInv(h) && HubValue(cfg, h) && SearchOk(h) && Ready(h) && host.size == h.size
    requires LinkSafe(h, Newcomer(cfg, h, memory, host, sending))
    ensures LinkValue(cfg, h, Newcomer(cfg, h, memory, host, sending))
  {
    hide HubInv, HubValue, MessageValue, Along, Aim;
    var l := Link(Peer(0, memory, cfg.largish, {}, {}, None, host, false, false, false), [], [], h.key, false, false, {}, sending);
    NewcomerSafe(h, l);
    FullValue(cfg, h, {});
    LinkValueSend(cfg, h, l, FullOf(h, {}));
  }

  lemma NewcomerSame(cfg: Config, h: Hub, h': Hub, memory: View, host: Host, sending: bool)
    requires h' == h.(search := h'.search)
    ensures Newcomer(cfg, h, memory, host, sending) == Newcomer(cfg, h', memory, host, sending)
  {
  }

  lemma NewcomerSafe(h: Hub, l: Link)
    requires SearchOk(h) && h.key >= 1 && l.peer.key == 0 && l.peer.work == l.peer.unreported == l.share == {}
    requires l.peer.draft == None && l.inbox == [] && l.outbox == [] && l.echo == h.key && l.peer.host.size == h.size
    ensures LinkSafe(h, l)
  {
  }

  lemma ReportValue(cfg: Config, s: System, i: nat, idle: bool, deal: map<nat, set<nat>>)
    requires ConfigOk(cfg) && SystemInv(cfg, s) && SystemValue(cfg, s) && Enabled(cfg, s, Event.Report(i, deal))
    requires SystemInv(cfg, ReadReport(cfg, s, i, idle, deal))
    ensures SystemValue(cfg, ReadReport(cfg, s, i, idle, deal))
  {
    hide LinkSafe, LinkValue, HubInv, CaughtUp, SystemInv, Send, Ready, LinkInv, MessageValue, Fair, FairSite, Ok, HubValue,
         ReportOk, Honest, After, Stale, CanBoot, AfterBoot, SendAll, OnPeerReport, SearchOk, Descends;
    var h, was, t := s.hub, s.links[i], ReadReport(cfg, s, i, idle, deal);
    var r := was.outbox[0];
    SafeOf(cfg, s);
    HeadOk(cfg, h, was);
    TailOk(cfg, h, was);
    if r.key != h.key {
      var l := was.(outbox := was.outbox[1..], echo := r.key);
      AfterOther(h.key, h.search.value, r);
      TailValue(cfg, h, was, l);
      if Stale(cfg, h, was) {
        FullValue(cfg, h, l.share);
        SafeOf(cfg, t);
        assert LinkSafe(t.hub, t.links[i]);
        LinkValueSend(cfg, h, l, FullOf(h, l.share));
      }
    } else if r.Found? {
      BootHub(cfg, h, r);
      BootValue(cfg, h, r);
      BootLinksValue(cfg, s, i, deal);
    } else {
      DoneHub(h, r, idle);
      NotBoot(h, r);
      DoneValue(cfg, h, was, idle);
      DoneLinksValue(cfg, s, i, idle, deal);
    }
  }

  lemma AfterOther(k: nat, v: real, r: Report)
    requires r.key != k
    ensures After(k, v, r) == v
  {
  }

  lemma HeadOk(cfg: Config, h: Hub, l: Link)
    requires ConfigOk(cfg) && SearchOk(h) && LinkSafe(h, l) && LinkValue(cfg, h, l) && l.outbox != []
    ensures ReportOk(h, l.outbox[0]) && Honest(cfg, h, l.outbox[0])
  {
    hide LinkSafe, PeerValue, Honest, ReportOk, MessageValue;
  }

  lemma DoneLinksValue(cfg: Config, s: System, i: nat, idle: bool, deal: map<nat, set<nat>>)
    requires ConfigOk(cfg) && SystemInv(cfg, s) && SystemValue(cfg, s) && Enabled(cfg, s, Event.Report(i, deal))
    requires var r := s.links[i].outbox[0]; r.Done? && r.key == s.hub.key
    requires SystemInv(cfg, ReadReport(cfg, s, i, idle, deal)) && !s.hub.phase.Converged?
    requires
      var r, h := s.links[i].outbox[0], s.hub;
      var h' := h.(search := OnPeerReport(h.search, r.value, r.find, r.units, idle));
      && SearchOk(h) && HubInv(h') && SearchOk(h') && HubValue(cfg, h') && Follows(h, h') && Descends(h, h')
      && After(h'.key, h'.search.value, r) == h'.search.value
    ensures SystemValue(cfg, ReadReport(cfg, s, i, idle, deal))
  {
    hide LinkSafe, LinkValue, HubInv, CaughtUp, SystemInv, Ready, Ok, HubValue, After, OnPeerReport, SearchOk, Descends,
         Follows, ReportOk;
    var h, t := s.hub, ReadReport(cfg, s, i, idle, deal);
    NotBoot(h, s.links[i].outbox[0]);
    SafeOf(cfg, s);
    SafeOf(cfg, t);
    forall j | j in t.links ensures LinkValue(cfg, t.hub, t.links[j]) {
      LinkFollows(cfg, h, t.hub, s.links[j]);
      InvSafe(cfg, t.hub, s.links[j]);
      LinkDescends(cfg, h, t.hub, s.links[j]);
      if j == i { TailValue(cfg, t.hub, s.links[i], t.links[i]); }
    }
  }

  lemma InvSafe(cfg: Config, h: Hub, l: Link)
    requires SearchOk(h) && LinkInv(cfg, h, l)
    ensures LinkSafe(h, l)
  {
  }

  lemma BootLinksValue(cfg: Config, s: System, i: nat, deal: map<nat, set<nat>>)
    requires ConfigOk(cfg) && SystemInv(cfg, s) && SystemValue(cfg, s) && !s.hub.phase.Converged?
    requires i in s.links && s.links[i].outbox != [] && forall j :: j in s.links ==> j in deal
    requires var r := s.links[i].outbox[0]; r.Found? && r.key == s.hub.key && CanBoot(s.hub, r)
    requires
      var h' := AfterBoot(s.hub, s.links[i].outbox[0]);
      && SearchOk(s.hub) && HubInv(h') && SearchOk(h') && HubValue(cfg, h') && Bumped(s.hub, h') && !h'.phase.Converged?
      && Dealt(h', s.links, deal)
    requires SystemInv(cfg, ReadReport(cfg, s, i, false, deal))
    ensures SystemValue(cfg, ReadReport(cfg, s, i, false, deal))
  {
    hide LinkSafe, LinkValue, HubInv, CaughtUp, SystemInv, Ready, Ok, HubValue, SearchOk, Bumped, AfterBoot, CanBoot, Send,
         ReportOk, ShareOk, MessageValue;
    var h, t := s.hub, ReadReport(cfg, s, i, false, deal);
    var was := s.links[i];
    var l := was.(outbox := was.outbox[1..], echo := was.outbox[0].key);
    SafeOf(cfg, s);
    SafeOf(cfg, t);
    TailOk(cfg, h, was);
    AfterFound(h.key, h.search.value, was.outbox[0]);
    TailValue(cfg, h, was, l);
    forall j | j in t.links ensures LinkValue(cfg, t.hub, t.links[j]) {
      var from := if j == i then l else s.links[j];
      DealtOk(t.hub, deal[j]);
      LinkBumped(cfg, h, t.hub, from, deal[j]);
      LinkValueBumped(cfg, h, t.hub, from, deal[j]);
      FullValue(cfg, t.hub, deal[j]);
      LinkValueSend(cfg, t.hub, from.(share := deal[j]), FullOf(t.hub, deal[j]));
    }
  }

  lemma AfterFound(k: nat, v: real, r: Report)
    requires r.Found?
    ensures After(k, v, r) == v
  {
  }

  lemma StartSystemValue(cfg: Config, s: System, idle: bool)
    requires ConfigOk(cfg) && SystemInv(cfg, s) && SystemValue(cfg, s) && Enabled(cfg, s, Event.Start)
    requires SystemInv(cfg, StartSync(s, idle))
    ensures SystemValue(cfg, StartSync(s, idle))
  {
    hide LinkSafe, LinkValue, HubInv, CaughtUp, SystemInv, Ready, Ok, HubValue, SearchOk, Absorb, Recentred, LinkInv;
    var t := StartSync(s, idle);
    SafeOf(cfg, s);
    StartGoesOn(s, idle);
    SafeOf(cfg, t);
    StartValue(cfg, s, idle);
    forall j | j in t.links ensures LinkValue(cfg, t.hub, t.links[j]) {
      if t.hub.phase.Recentring? {
        LinkNotHanding(cfg, s.hub, t.hub, s.links[j], t.links[j]);
      } else {
        StartLink(cfg, s, t, idle, j);
      }
    }
  }

  lemma StartGoesOn(s: System, idle: bool)
    requires Ok(s.hub.search) && s.hub.phase.Idle?
    ensures var t := StartSync(s, idle); !t.hub.phase.Converged? && (!t.hub.phase.Recentring? ==> Descends(s.hub, t.hub))
    ensures StartSync(s, idle).links.Keys == s.links.Keys
    ensures forall j :: j in s.links ==>
              var t := StartSync(s, idle).links[j];
              t.peer == s.links[j].peer && t.inbox == s.links[j].inbox && t.outbox == s.links[j].outbox
  {
    hide CentreOk, Recentred, Ok;
    AbsorbIs(s.hub.search, idle);
  }

  lemma AbsorbIs(s: State, idle: bool)
    requires Ok(s)
    ensures
      var a := Absorb(s, idle);
      && a.geo == s.geo && a.centre == s.centre && a.boot == s.boot && a.value == s.value && a.best == s.best
  {
    hide FineGrid, InRange, Point, Site, Total;
  }

  lemma StartLink(cfg: Config, s: System, t: System, idle: bool, j: nat)
    requires ConfigOk(cfg) && SystemInv(cfg, s) && SystemValue(cfg, s) && SystemInv(cfg, t) && j in s.links && j in t.links
    requires !s.hub.phase.Converged? && !t.hub.phase.Converged? && Descends(s.hub, t.hub)
    requires HubInv(s.hub) && s.hub.phase.Idle? && !s.hub.search.boot && SearchOk(s.hub) && t == StartSync(s, idle)
    requires !t.hub.phase.Recentring? && SearchOk(t.hub)
    requires t.links[j].peer == s.links[j].peer && t.links[j].inbox == s.links[j].inbox && t.links[j].outbox == s.links[j].outbox
    ensures LinkSafe(t.hub, t.links[j]) && LinkValue(cfg, t.hub, t.links[j])
  {
    hide LinkSafe, LinkValue, HubInv, CaughtUp, SystemInv, Ready, Ok, HubValue, SearchOk, Absorb, Recentred, Descends,
         Follows;
    SafeOf(cfg, s);
    SafeOf(cfg, t);
    StartHub(s.hub, idle);
    LinkFollows(cfg, s.hub, t.hub, s.links[j]);
    InvSafe(cfg, t.hub, s.links[j]);
    LinkDescends(cfg, s.hub, t.hub, s.links[j]);
    LinkValueShare(cfg, t.hub, s.links[j], t.links[j]);
  }

  lemma FinishValue(cfg: Config, s: System, next: Geometry, deal: map<nat, set<nat>>, assist: set<nat>)
    requires ConfigOk(cfg) && SystemInv(cfg, s) && SystemValue(cfg, s) && Enabled(cfg, s, Finish(next, deal, assist))
    requires SystemInv(cfg, FinishSync(cfg, s, next, deal, assist))
    ensures SystemValue(cfg, FinishSync(cfg, s, next, deal, assist))
  {
    hide LinkSafe, LinkValue, HubInv, CaughtUp, SystemInv, Ready, Ok, HubValue, SearchOk, LinkInv, Advanced, Shrunk,
         AllEnded, Send, SendAll, GeoOk, Bumped, Follows, Descends;
    var h, t := s.hub, FinishSync(cfg, s, next, deal, assist);
    SafeOf(cfg, s);
    if Advanced(h).level >= h.search.geo.levels {
      if !AllEnded(next) {
        ShrunkHub(cfg, h, next);
        ShrinkValue(cfg, s, next, deal, assist);
      }
    } else {
      AdvancedHub(h);
      var done := h.(search := Advanced(h).(redistribute := false), phase := Idle);
      HubSearchOk(h, done);
      AdvancedValue(cfg, h, done);
      if h.phase.Recentring? {
        CentreValue(cfg, s, next, deal, assist);
      } else {
        WorkValue(cfg, s, next, deal, assist);
      }
    }
  }

  lemma HubSearchOk(h: Hub, done: Hub)
    requires HubInv(done) || HubInv(Completed(done))
    ensures SearchOk(done) && SearchOk(Completed(done))
  {
    hide CentreOk, Point, VisitedOk, Inv, Settled;
  }

  lemma ShrinkValue(cfg: Config, s: System, next: Geometry, deal: map<nat, set<nat>>, assist: set<nat>)
    requires ConfigOk(cfg) && SystemInv(cfg, s) && SystemValue(cfg, s) && Enabled(cfg, s, Finish(next, deal, assist))
    requires SystemInv(cfg, FinishSync(cfg, s, next, deal, assist))
    requires Advanced(s.hub).level >= s.hub.search.geo.levels && !AllEnded(next)
    requires
      var h' := Completed(Narrowed(cfg, s.hub, next));
      HubInv(h') && SearchOk(s.hub) && Bumped(s.hub, h') && h'.search.boot
    ensures SystemValue(cfg, FinishSync(cfg, s, next, deal, assist))
  {
    hide LinkSafe, LinkValue, HubInv, CaughtUp, SystemInv, Ready, Ok, SearchOk, Advanced, Shrunk, AllEnded, Send, GeoOk,
         Bumped;
    var h, t := s.hub, FinishSync(cfg, s, next, deal, assist);
    SafeOf(cfg, s);
    SafeOf(cfg, t);
    NothingRecorded(cfg, t.hub);
    forall j | j in t.links ensures LinkValue(cfg, t.hub, t.links[j]) {
      BootShare(t.hub, s.links[j].share);
      LinkBumped(cfg, h, t.hub, s.links[j], s.links[j].share);
      LinkValueBumped(cfg, h, t.hub, s.links[j], s.links[j].share);
      FullValue(cfg, t.hub, s.links[j].share);
      LinkValueSend(cfg, t.hub, s.links[j], FullOf(t.hub, s.links[j].share));
    }
  }

  lemma NothingRecorded(cfg: Config, h: Hub)
    requires ConfigOk(cfg) && SearchOk(h) && h.search.boot && h.lost == {} && h.overlooked == {}
    ensures HubValue(cfg, h)
  {
  }

  lemma BootShare(h: Hub, share: set<nat>)
    requires SearchOk(h) && h.search.boot
    ensures ShareOk(h, share)
  {
  }

  lemma CentreValue(cfg: Config, s: System, next: Geometry, deal: map<nat, set<nat>>, assist: set<nat>)
    requires ConfigOk(cfg) && SystemInv(cfg, s) && SystemValue(cfg, s) && Enabled(cfg, s, Finish(next, deal, assist))
    requires SystemInv(cfg, FinishSync(cfg, s, next, deal, assist))
    requires Advanced(s.hub).level < s.hub.search.geo.levels && s.hub.phase.Recentring?
    requires
      var h' := Completed(s.hub.(search := Advanced(s.hub).(redistribute := false), phase := Idle));
      SearchOk(s.hub) && HubInv(h') && Bumped(s.hub, h') && SearchOk(h') && HubValue(cfg, h')
    ensures SystemValue(cfg, FinishSync(cfg, s, next, deal, assist))
  {
    hide LinkSafe, LinkValue, HubInv, CaughtUp, SystemInv, Ready, Ok, SearchOk, Advanced, GeoOk, Bumped, Send, HubValue,
         ShareOk, MessageValue;
    var h, t := s.hub, FinishSync(cfg, s, next, deal, assist);
    SafeOf(cfg, s);
    SafeOf(cfg, t);
    forall j | j in t.links ensures LinkValue(cfg, t.hub, t.links[j]) {
      DealtOk(t.hub, deal[j]);
      LinkBumped(cfg, h, t.hub, s.links[j], deal[j]);
      LinkValueBumped(cfg, h, t.hub, s.links[j], deal[j]);
      FullValue(cfg, t.hub, deal[j]);
      SameValue(cfg, t.hub, h.phase.complexity, deal[j]);
      LinkValueSend(cfg, t.hub, s.links[j].(share := deal[j]), Message.Centre(t.hub.key, h.phase.complexity, t.hub.msgValue, deal[j]));
    }
  }

  lemma SameValue(cfg: Config, h: Hub, complexity: nat, work: set<nat>)
    requires MessageValue(cfg, h, FullOf(h, work)) && h.msgKey == h.key
    ensures MessageValue(cfg, h, Message.Centre(h.key, complexity, h.msgValue, work))
  {
  }

  lemma WorkValue(cfg: Config, s: System, next: Geometry, deal: map<nat, set<nat>>, assist: set<nat>)
    requires ConfigOk(cfg) && SystemInv(cfg, s) && SystemValue(cfg, s) && Enabled(cfg, s, Finish(next, deal, assist))
    requires SystemInv(cfg, FinishSync(cfg, s, next, deal, assist))
    requires Advanced(s.hub).level < s.hub.search.geo.levels && s.hub.phase.Advancing?
    requires
      var done := s.hub.(search := Advanced(s.hub).(redistribute := false), phase := Idle);
      SearchOk(s.hub) && HubInv(done) && SearchOk(done) && HubValue(cfg, done) && Follows(s.hub, done) && Descends(s.hub, done)
    ensures SystemValue(cfg, FinishSync(cfg, s, next, deal, assist))
  {
    hide LinkSafe, LinkValue, HubInv, CaughtUp, SystemInv, Ready, Ok, SearchOk, Advanced, GeoOk, Send, HubValue,
         ShareOk, Follows, Descends, LinkInv;
    var h, t := s.hub, FinishSync(cfg, s, next, deal, assist);
    SafeOf(cfg, s);
    SafeOf(cfg, t);
    forall j | j in t.links ensures LinkValue(cfg, t.hub, t.links[j]) {
      var l := s.links[j];
      LinkFollows(cfg, h, t.hub, l);
      InvSafe(cfg, t.hub, l);
      LinkDescends(cfg, h, t.hub, l);
      if h.search.redistribute {
        DealtOk(t.hub, deal[j]);
        LinkShare(cfg, t.hub, l, deal[j]);
        InvSafe(cfg, t.hub, l.(share := deal[j]));
        LinkValueShare(cfg, t.hub, l, l.(share := deal[j]));
        LinkValueSend(cfg, t.hub, l.(share := deal[j]), Work(deal[j], true));
      } else if j in assist {
        LinkValueSend(cfg, t.hub, l, Work(l.share, false));
      }
    }
  }

  // ----- Every run -----

  lemma ConvergedValue(cfg: Config, s: System)
    requires ConfigOk(cfg) && SystemInv(cfg, s) && s.hub.phase.Converged?
    ensures SystemValue(cfg, s)
  {
  }

  lemma StepKeepsValue(cfg: Config, s: System, e: Event)
    requires ConfigOk(cfg) && SystemInv(cfg, s) && SystemValue(cfg, s) && Enabled(cfg, s, e)
    ensures SystemInv(cfg, Step(cfg, s, e)) && SystemValue(cfg, Step(cfg, s, e))
  {
    hide SystemInv, SystemValue, ReadReport, StartSync, FinishSync;
    StepKeepsInv(cfg, s, e);
    if s.hub.phase.Converged? {
      StaysConverged(cfg, s, e);
      ConvergedValue(cfg, Step(cfg, s, e));
    } else {
      match e
      case Join(i, memory, host, sending) => JoinValue(cfg, s, i, memory, host, sending);
      case Evaluate(i, c) => EvaluateValue(cfg, s, i, c);
      case TryPoint(i, point) => TryValue(cfg, s, i, point);
      case Report(i, deal) => ReportValue(cfg, s, i, ReportEmpties(s.links[i]), deal);
      case Start => StartSystemValue(cfg, s, SyncEmpties(s));
      case Finish(next, deal, assist) => FinishValue(cfg, s, next, deal, assist);
      case _ => PeerStepValue(cfg, s, e);
    }
  }

  lemma {:induction false} RunKeepsValue(cfg: Config, s: System, events: seq<Event>, t: System)
    requires ConfigOk(cfg) && SystemInv(cfg, s) && SystemValue(cfg, s) && Protocol.Runs(cfg, s, events, t)
    ensures SystemInv(cfg, t) && SystemValue(cfg, t)
    decreases |events|
  {
    hide SystemInv, SystemValue, Step, Enabled;
    if events != [] {
      StepKeepsValue(cfg, s, events[0]);
      RunKeepsValue(cfg, Step(cfg, s, events[0]), events[1..], t);
    }
  }

  lemma FreshValue(cfg: Config, g: Geometry)
    requires ConfigOk(cfg) && GeoOk(g) && 1 <= g.levels && SystemInv(cfg, Protocol.Fresh(cfg, g))
    ensures SystemValue(cfg, Protocol.Fresh(cfg, g))
  {
    hide Total, FineGrid, InRange, Upto, Points, Inv, Settled;
  }
}
