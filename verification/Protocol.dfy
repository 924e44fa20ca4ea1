/** The server and its peers as one state machine: keyed messages over first-in first-out links, syncs that may be
    late or stale, peers that come and go at any time, also while a sync is under way. */
module Protocol {
  import opened Combos
  import opened Coefficients
  import opened Positions
  import opened Ranges
  import opened Sites
  import opened Views
  import opened Duplicates
  import opened Search

  datatype Message =
    | Full(key: nat, epoch: Epoch, value: real, work: set<nat>)
    | Centre(key: nat, complexity: nat, value: real, work: set<nat>)
    | Work(work: set<nat>, reply: bool)

  /** `view` is not on the wire: it records what the report was computed with. */
  datatype Report =
    | Found(key: nat, view: View, point: seq<nat>, value: real)
    | Done(key: nat, view: View, value: real, find: Option<nat>, units: set<nat>)

  /** `draft` is the report that waits for a write to complete. Key 0: no message has been read yet. `due`: a report is to be
      made after the next unit. `going`: the timer of the iterations runs. `gagged` is not part of the program: it records
      that a find of this key was written over and none has been named since. */
  datatype Peer = Peer(key: nat, view: View, value: real, work: set<nat>, unreported: set<nat>, draft: Option<Report>,
                       host: Host, due: bool, going: bool, gagged: bool)

  /** A peer, the two directions of its connection, and what the server keeps about it. `writing` and `sending` say that a
      write of the server's, or of the peer's, is under way: what was written may have been read already. */
  datatype Link = Link(peer: Peer, inbox: seq<Message>, outbox: seq<Report>, echo: nat, writing: bool, late: bool,
                       share: set<nat>, sending: bool)

  /** `Advancing` and `Recentring`: the coroutine may have yielded; reports wait. */
  datatype Phase = Idle | Advancing | Recentring(from: seq<nat>, complexity: nat) | Converged

  type Seen = set<(Frame, seq<nat>)>

  /** A better find of the current centre that a peer has written over. */
  datatype Loss = Loss(centre: seq<nat>, unit: nat, value: real)

  /** The server: its search, `io_key`, the whole-state message it keeps ready, and the limit on complexities. The rest is not
      part of the program: it records the points evaluated so far, and, of the current box, the finds that were written over
      and the points listed by reports of peers that had written over a find. */
  datatype Hub = Hub(search: State, key: nat, msgKey: nat, msgEpoch: Epoch, msgValue: real, phase: Phase, size: nat,
                     evaluated: Seen, lost: set<Loss>, overlooked: set<seq<nat>>)

  datatype System = System(hub: Hub, links: map<nat, Link>)

  /** The objective, the ratio a find must improve by, the value that stands for none, `stale_io_limit`, and the limit on
      complexities. */
  datatype Config = Config(f: (Frame, seq<nat>) -> real, ratio: real, largish: real, limit: nat, size: nat)

  ghost predicate ConfigOk(cfg: Config) { cfg.ratio >= 1.0 && cfg.limit >= 1 }

  /** `e_min_type::target`. */
  function Aim(ratio: real, value: real): real
    requires ratio != 0.0
  {
    if value < 0.0 then value * ratio else value * (1.0 / ratio)
  }

  // ----- The peer -----

  ghost predicate CanApply(p: Peer, m: Message) {
    m.Centre? ==> ViewOk(p.view) && m.complexity < Span(p.view)
  }

  /** A new list: the iterations go on, and what has not been reported is to be. */
  function Handed(p: Peer, work: set<nat>, reply: bool): Peer {
    p.(work := work, due := p.due || (reply && p.unreported != {}), going := true)
  }

  /** `on_server_state_sync_read`. A whole state with the key the peer already has only replaces the work. */
  ghost function Apply(p: Peer, m: Message): Peer {
    match m
    case Full(key, epoch, value, work) =>
      if key != p.key then Peer(key, ViewOf(p.host, key, epoch), value, work, {}, None, p.host, false, true, false)
      else Handed(p, work, true)
    case Centre(key, complexity, value, work) =>
      if CanApply(p, m) then
        Peer(key, p.view.(centre := Where(p.view, complexity)), value, work, {}, None, p.host, false, true, false)
      else p
    case Work(work, reply) => Handed(p, work, reply)
  }

  ghost predicate CanProcess(p: Peer, c: nat) {
    p.key != 0 && !p.view.boot && c in p.work && ViewOk(p.view) && c < Span(p.view)
  }

  ghost function Stands(p: Peer, c: nat): (Frame, seq<nat>)
    requires CanProcess(p, c)
  {
    (p.view.frame, Where(p.view, c))
  }

  ghost predicate Improves(cfg: Config, p: Peer, c: nat)
    requires CanProcess(p, c) && ConfigOk(cfg)
  {
    var x := Stands(p, c);
    x.1 != p.view.centre && cfg.f(x.0, x.1) < Aim(cfg.ratio, p.value)
  }

  /** The peer after `on_process_timeout` has evaluated unit `c`, but before it reports. */
  ghost function Processed(cfg: Config, p: Peer, c: nat): Peer
    requires CanProcess(p, c) && ConfigOk(cfg)
  {
    var x := Stands(p, c);
    p.(value := if Improves(cfg, p, c) then cfg.f(x.0, x.1) else p.value,
       work := p.work - {c}, unreported := p.unreported + {c})
  }

  ghost function DoneReport(cfg: Config, p: Peer, c: nat): Report
    requires CanProcess(p, c) && ConfigOk(cfg)
  {
    var q := Processed(cfg, p, c);
    Done(q.key, q.view, q.value, if Improves(cfg, p, c) then Some(c) else None, q.unreported)
  }

  /** A report goes out at once, or, while a write is under way, it waits as the draft; a draft that already waits is written
      over. */
  ghost function Reporting(l: Link, p: Peer, r: Report): Link {
    if l.sending then l.(peer := p.(draft := Some(r)))
    else l.(peer := p.(unreported := {}), outbox := l.outbox + [r], sending := true)
  }

  /** Whether the peer reports after unit `c`: a find, nothing left to do, or a report is due. */
  ghost predicate Reports(cfg: Config, p: Peer, c: nat)
    requires CanProcess(p, c) && ConfigOk(cfg)
  {
    Improves(cfg, p, c) || Processed(cfg, p, c).work == {} || p.due
  }

  /** A find waits to be sent. */
  predicate FindWaits(l: Link) {
    l.sending && l.peer.draft.Some? && l.peer.draft.value.Done? && l.peer.draft.value.find.Some?
  }

  /** The step writes over a find that waits to be sent, without naming another. */
  ghost predicate Overwrites(cfg: Config, l: Link, c: nat)
    requires CanProcess(l.peer, c) && ConfigOk(cfg)
  {
    FindWaits(l) && !Improves(cfg, l.peer, c) && Reports(cfg, l.peer, c)
  }

  ghost predicate GaggedAfter(cfg: Config, l: Link, c: nat)
    requires CanProcess(l.peer, c) && ConfigOk(cfg)
  {
    !Improves(cfg, l.peer, c) && (l.peer.gagged || Overwrites(cfg, l, c))
  }

  /** After a find, or with nothing left, the iterations stop, unless the report had been due. */
  ghost function Process(cfg: Config, l: Link, c: nat): Link
    requires CanProcess(l.peer, c) && ConfigOk(cfg)
  {
    var q := Processed(cfg, l.peer, c).(gagged := GaggedAfter(cfg, l, c));
    if Reports(cfg, l.peer, c) then Reporting(l, q.(due := false, going := l.peer.due), DoneReport(cfg, l.peer, c))
    else l.(peer := q)
  }

  /** An iteration that finds nothing left to do lets the timer rest; the next message starts it again. */
  function Resting(p: Peer): Peer { p.(going := false) }

  /** The objective is not computed where no coefficient has moved. */
  ghost function Computed(v: View, point: seq<nat>): Seen {
    if point != v.centre then {(v.frame, point)} else {}
  }

  ghost predicate CanBootstrap(p: Peer, point: seq<nat>) {
    p.key != 0 && p.view.boot && PointOk(p.view.frame, point)
  }

  ghost function Bootstrap(cfg: Config, l: Link, point: seq<nat>): Link
    requires CanBootstrap(l.peer, point) && ConfigOk(cfg)
  {
    var v := cfg.f(l.peer.view.frame, point);
    if point != l.peer.view.centre && v < Aim(cfg.ratio, l.peer.value) then
      var q := l.peer.(value := v, going := false);
      Reporting(l, q, Found(q.key, q.view, point, v))
    else l
  }

  /** The timer that makes a peer report what it has not reported for long. */
  function Due(l: Link): Link { l.(peer := l.peer.(due := l.peer.due || l.peer.unreported != {})) }

  /** The unit done next: the last one of the first range of the list. */
  predicate IsNext(work: set<nat>, c: nat) {
    c in work && c + 1 !in work && forall x :: x in work && x < c ==> x + 1 in work
  }

  /** A write of the peer's is through: a draft that waits goes out with the next one. */
  ghost function Sent(l: Link): Link {
    if l.peer.draft.Some? then
      l.(peer := l.peer.(draft := None, unreported := {}), outbox := l.outbox + [l.peer.draft.value], sending := true)
    else l.(sending := false)
  }

  // ----- The server -----

  ghost predicate Stale(cfg: Config, h: Hub, l: Link) { h.key >= l.echo + cfg.limit }

  /** `sync_peer_to_server`. */
  ghost function Send(cfg: Config, h: Hub, l: Link, m: Message): Link {
    if !l.writing && !Stale(cfg, h, l) then l.(inbox := l.inbox + [m], writing := true) else l.(late := true)
  }

  ghost function FullOf(h: Hub, work: set<nat>): Message {
    Full(h.msgKey, h.msgEpoch, h.msgValue, work)
  }

  /** A write completed: a late peer is caught up with the whole state. */
  ghost function Written(cfg: Config, h: Hub, l: Link): Link {
    if l.late then Send(cfg, h, l.(writing := false, late := false), FullOf(h, l.share))
    else l.(writing := false)
  }

  /** The whole-state message as `complete_server_state_sync_msg` leaves it, under the next key. */
  ghost function Completed(h: Hub): Hub {
    h.(key := h.key + 1, msgKey := h.key + 1, msgEpoch := Epoch(FrameOf(h.search.geo), h.search.centre, h.search.boot),
       msgValue := h.search.value)
  }

  ghost predicate Dealt(h: Hub, links: map<nat, Link>, deal: map<nat, set<nat>>) {
    forall i :: i in links ==> i in deal && deal[i] <= h.search.remaining
  }

  function WithWork(m: Message, work: set<nat>): Message {
    match m
    case Full(key, epoch, value, _) => Full(key, epoch, value, work)
    case Centre(key, complexity, value, _) => Centre(key, complexity, value, work)
    case Work(_, reply) => Work(work, reply)
  }

  /** Everybody gets a new share and the message with it. */
  ghost function SendAll(cfg: Config, h: Hub, links: map<nat, Link>, deal: map<nat, set<nat>>, m: Message)
    : map<nat, Link>
    requires forall i :: i in links ==> i in deal
  {
    map i | i in links :: Send(cfg, h, links[i].(share := deal[i]), WithWork(m, deal[i]))
  }

  ghost predicate CanBoot(h: Hub, r: Report) {
    r.Found? && Ok(h.search) && InRange(First(h.search.geo.grid), r.point)
  }

  ghost function AfterBoot(h: Hub, r: Report): Hub
    requires CanBoot(h, r)
  {
    Completed(h.(search := OnBootReport(h.search, r.point, r.value)))
  }

  /** The report lists the last of what the peer had been handed. */
  predicate ReportEmpties(l: Link)
    requires l.outbox != []
  {
    var r := l.outbox[0];
    r.Done? && r.units != {} && l.share - r.units == {}
  }

  /** What others have done empties some peer's share. */
  predicate SyncEmpties(s: System) {
    var done := s.hub.search.accumulated;
    done != {} && s.hub.search.remaining - done != {} && exists i :: i in s.links && s.links[i].share - done == {}
  }

  /** `on_read`, when no sync is under way. */
  ghost function ReadReport(cfg: Config, s: System, i: nat, idle: bool, deal: map<nat, set<nat>>): System
    requires i in s.links && s.links[i].outbox != []
    requires forall j :: j in s.links ==> j in deal
  {
    var h, was := s.hub, s.links[i];
    var r := was.outbox[0];
    var l := was.(outbox := was.outbox[1..], echo := r.key);
    if r.key != h.key then
      s.(links := s.links[i := if Stale(cfg, h, was) then Send(cfg, h, l, FullOf(h, l.share)) else l])
    else if CanBoot(h, r) then
      var h' := AfterBoot(h, r);
      System(h', SendAll(cfg, h', s.links[i := l], deal, FullOf(h', {})))
    else if r.Done? then
      System(h.(search := OnPeerReport(h.search, r.value, r.find, r.units, idle)),
             s.links[i := l.(share := l.share - r.units)])
    else s
  }

  /** The start of `on_coroutine`: reports are absorbed and, after a better find, the centre moves at once, in the search
      and in the whole-state message, still under the old key. */
  ghost function StartSync(s: System, idle: bool): System
    requires Ok(s.hub.search)
  {
    var h, a := s.hub, Absorb(s.hub.search, idle);
    var taken := if a.remaining == {} then {} else h.search.accumulated;
    var links := map i | i in s.links :: s.links[i].(share := s.links[i].share - taken);
    if a.best.Some? then
      var r := Recentred(a);
      System(h.(search := r, msgEpoch := h.msgEpoch.(centre := r.centre),
                phase := Recentring(h.search.centre, a.best.value)), links)
    else System(h.(search := a, phase := Advancing), links)
  }

  ghost function Advanced(h: Hub): State
    requires Ok(h.search)
  {
    if h.phase.Recentring? || h.search.redistribute then Advance(h.search) else h.search
  }

  ghost predicate AllEnded(g: Geometry) { forall j :: 0 <= j < |g.ended| ==> g.ended[j] }

  /** The box has shrunk: what was recorded of the old one is of no account. */
  ghost function Narrowed(cfg: Config, h: Hub, next: Geometry): Hub
    requires GeoOk(next) && 1 <= next.levels
  {
    h.(search := Shrunk(h.search, next, cfg.largish), phase := Idle, lost := {}, overlooked := {})
  }

  /** Units are handed out and reports about them accepted, around the centre as it is. */
  ghost predicate Handing(h: Hub) { !h.search.boot && !h.phase.Recentring? }

  /** What is recorded when a peer writes over a waiting find. */
  ghost function LostNow(cfg: Config, h: Hub, l: Link, c: nat): set<Loss>
    requires CanProcess(l.peer, c) && ConfigOk(cfg)
  {
    if Handing(h) && l.peer.key == h.key && Overwrites(cfg, l, c) then
      {Loss(l.peer.view.centre, l.peer.draft.value.find.value, l.peer.draft.value.value)}
    else {}
  }

  ghost function PointsOf(v: View, units: set<nat>): (r: set<seq<nat>>)
    requires ViewOk(v) && Covers(v, units)
    ensures forall c :: c in units ==> Where(v, c) in r
  {
    set c | c in units :: Where(v, c)
  }

  /** And the points it then lists without a find. */
  ghost function OverlookedNow(cfg: Config, h: Hub, l: Link, c: nat): set<seq<nat>>
    requires CanProcess(l.peer, c) && ConfigOk(cfg)
  {
    if && Handing(h) && l.peer.key == h.key && Reports(cfg, l.peer, c) && GaggedAfter(cfg, l, c)
       && Covers(l.peer.view, l.peer.unreported + {c})
    then PointsOf(l.peer.view, l.peer.unreported + {c})
    else {}
  }

  /** The rest of `on_coroutine`. */
  ghost function FinishSync(cfg: Config, s: System, next: Geometry, deal: map<nat, set<nat>>, assist: set<nat>): System
    requires Ok(s.hub.search) && GeoOk(next) && 1 <= next.levels
    requires forall i :: i in s.links ==> i in deal
  {
    var h, r := s.hub, Advanced(s.hub);
    if r.level >= h.search.geo.levels then
      if AllEnded(next) then s.(hub := h.(key := h.key + 1, phase := Converged))
      else
        var h' := Completed(Narrowed(cfg, h, next));
        System(h', map i | i in s.links :: Send(cfg, h', s.links[i], FullOf(h', s.links[i].share)))
    else
      var done := h.(search := r.(redistribute := false), phase := Idle);
      if h.phase.Recentring? then
        var h' := Completed(done);
        System(h', SendAll(cfg, h', s.links, deal, Centre(h'.key, h.phase.complexity, h'.msgValue, {})))
      else if h.search.redistribute then
        System(done, SendAll(cfg, done, s.links, deal, Work({}, true)))
      else
        // only the peers that somebody else has done work for hear of it
        System(done, map i | i in s.links ::
          if i in assist then Send(cfg, done, s.links[i], Work(s.links[i].share, false)) else s.links[i])
  }

  // ----- Runs -----

  datatype Event =
    | Join(i: nat, memory: View, host: Host, sending: bool)
    | Leave(i: nat)
    | WriteDone(i: nat)
    | ReadMessage(i: nat)
    | Evaluate(i: nat, c: nat)
    | ReportDue(i: nat)
    | Rest(i: nat)
    | TryPoint(i: nat, point: seq<nat>)
    | SendDone(i: nat)
    | Report(i: nat, deal: map<nat, set<nat>>)
    | Start
    | Finish(next: Geometry, deal: map<nat, set<nat>>, assist: set<nat>)

  /** A geometry is one the server builds for some number of coefficients at once. */
  ghost predicate Makeable(size: nat, g: Geometry) {
    GeoOk(g) && 1 <= g.levels && exists intended :: Made(g, size, intended)
  }

  /** A shrink leaves as many coefficients; what has ended stays so, and each box lies in the one before. */
  ghost predicate Narrower(g: Geometry, next: Geometry) {
    && |next.grid| == |g.grid| && |next.ended| == |g.ended| && |next.box| == |g.box|
    && (forall j :: 0 <= j < |g.ended| && g.ended[j] ==> next.ended[j])
    && forall j :: 0 <= j < |g.box| ==>
         g.box[j].from <= next.box[j].from && next.box[j].from + next.box[j].range <= g.box[j].from + g.box[j].range
  }

  ghost predicate Enabled(cfg: Config, s: System, e: Event) {
    match e
    case Join(i, memory, host, sending) => i !in s.links && !s.hub.phase.Converged? && host.size == s.hub.size
    case Leave(i) => i in s.links
    case WriteDone(i) => i in s.links && s.links[i].writing
    case ReadMessage(i) => i in s.links && s.links[i].inbox != []
    case Evaluate(i, c) =>
      i in s.links && CanProcess(s.links[i].peer, c) && s.links[i].peer.going && IsNext(s.links[i].peer.work, c)
    case ReportDue(i) => i in s.links
    case Rest(i) => i in s.links && !s.links[i].peer.view.boot && s.links[i].peer.work == {} && s.links[i].peer.going
    case TryPoint(i, point) => i in s.links && CanBootstrap(s.links[i].peer, point) && s.links[i].peer.going
    case SendDone(i) => i in s.links && s.links[i].sending
    case Report(i, deal) =>
      && s.hub.phase.Idle? && i in s.links && s.links[i].outbox != []
      && (forall j :: j in s.links ==> j in deal)
      && (s.links[i].outbox[0].key == s.hub.key && CanBoot(s.hub, s.links[i].outbox[0]) ==>
            Dealt(AfterBoot(s.hub, s.links[i].outbox[0]), s.links, deal))
    case Start => s.hub.phase.Idle? && !s.hub.search.boot && Ok(s.hub.search)
    case Finish(next, deal, assist) =>
      && (s.hub.phase.Advancing? || s.hub.phase.Recentring?) && Ok(s.hub.search) && Makeable(s.hub.size, next)
      && Narrower(s.hub.search.geo, next)
      && (forall i :: i in s.links ==> i in deal && deal[i] <= Advanced(s.hub).remaining)
  }

  /** A peer that has just been taken on, and the whole state on its way to it. */
  ghost function Newcomer(cfg: Config, h: Hub, memory: View, host: Host, sending: bool): Link {
    Send(cfg, h, Link(Peer(0, memory, cfg.largish, {}, {}, None, host, false, false, false), [], [], h.key, false, false, {}, sending),
         FullOf(h, {}))
  }

  ghost function Step(cfg: Config, s: System, e: Event): System
    requires ConfigOk(cfg) && Enabled(cfg, s, e)
  {
    var h := s.hub;
    match e
    case Join(i, memory, host, sending) =>
      System(h.(search := h.search.(redistribute := true)), s.links[i := Newcomer(cfg, h, memory, host, sending)])
    case Leave(i) => s.(links := s.links - {i})
    case WriteDone(i) => s.(links := s.links[i := Written(cfg, h, s.links[i])])
    case ReadMessage(i) =>
      var l := s.links[i];
      s.(links := s.links[i := l.(peer := Apply(l.peer, l.inbox[0]), inbox := l.inbox[1..])])
    case Evaluate(i, c) =>
      var l := s.links[i];
      System(h.(evaluated := h.evaluated + Computed(l.peer.view, Stands(l.peer, c).1),
                lost := h.lost + LostNow(cfg, h, l, c),
                overlooked := h.overlooked + OverlookedNow(cfg, h, l, c)),
             s.links[i := Process(cfg, l, c)])
    case ReportDue(i) => s.(links := s.links[i := Due(s.links[i])])
    case Rest(i) => s.(links := s.links[i := s.links[i].(peer := Resting(s.links[i].peer))])
    case TryPoint(i, point) =>
      System(h.(evaluated := h.evaluated + Computed(s.links[i].peer.view, point)),
             s.links[i := Bootstrap(cfg, s.links[i], point)])
    case SendDone(i) => s.(links := s.links[i := Sent(s.links[i])])
    case Report(i, deal) => ReadReport(cfg, s, i, ReportEmpties(s.links[i]), deal)
    case Start => StartSync(s, SyncEmpties(s))
    case Finish(next, deal, assist) => FinishSync(cfg, s, next, deal, assist)
  }

  /** A fresh task, bootstrapping, without peers. */
  ghost function Fresh(cfg: Config, g: Geometry): System
    requires GeoOk(g) && 1 <= g.levels
  {
    var search := State(g, Zeros(|g.grid|), 0, Points(Range(0, Upto(g, 1))), {}, {}, true, cfg.largish, None, false);
    System(Hub(search, 1, 1, Epoch(FrameOf(g), search.centre, true), cfg.largish, Idle, cfg.size, {}, {}, {}), map[])
  }

  /** What a run may start from. */
  ghost predicate Startable(cfg: Config, g: Geometry) {
    ConfigOk(cfg) && Makeable(cfg.size, g) && !AllEnded(g)
  }

  ghost predicate Runs(cfg: Config, s: System, events: seq<Event>, t: System)
    requires ConfigOk(cfg)
    decreases |events|
  {
    if events == [] then s == t
    else Enabled(cfg, s, events[0]) && Runs(cfg, Step(cfg, s, events[0]), events[1..], t)
  }
}
