/** What the server does for its peers, step by step: whom it tells what, whose work it takes, and when it deals anew. */
module Service {
  import opened Coefficients
  import opened Positions
  import opened Ranges
  import opened Sites
  import opened Duplicates
  import opened Views
  import opened Search
  import opened Protocol
  import Safety
  import Runs

  /** Message `m` reaches the connection: it goes out if no write is under way and the peer has echoed one of the last keys, and
      otherwise the peer counts as late. */
  ghost predicate Hears(cfg: Config, key: nat, l: Link, t: Link, m: Message) {
    if l.writing || l.echo + cfg.limit <= key then t == l.(late := true)
    else t == l.(inbox := l.inbox + [m], writing := true)
  }

  /** Once its write is through, a late peer hears of everything at once, with what is its share by now. */
  lemma LateHears(cfg: Config, s: System, i: nat)
    requires ConfigOk(cfg) && Enabled(cfg, s, WriteDone(i))
    ensures
      var h, l, t := s.hub, s.links[i], Step(cfg, s, WriteDone(i));
      && t == s.(links := s.links[i := t.links[i]])
      && if l.late then
           Hears(cfg, h.key, l.(writing := false, late := false), t.links[i], Full(h.msgKey, h.msgEpoch, h.msgValue, l.share))
         else t.links[i] == l.(writing := false)
  {
  }

  /** Whoever joins hears the whole state, without work, and makes the work be dealt anew. */
  lemma NewcomerHears(cfg: Config, s: System, i: nat, memory: View, host: Host, sending: bool)
    requires ConfigOk(cfg) && Enabled(cfg, s, Join(i, memory, host, sending))
    ensures
      var h, t := s.hub, Step(cfg, s, Join(i, memory, host, sending));
      && t.hub == h.(search := h.search.(redistribute := true)) && t.links == s.links[i := t.links[i]]
      && var l := t.links[i];
      && l.inbox == [Full(h.msgKey, h.msgEpoch, h.msgValue, {})] && l.writing && !l.late && l.share == {} && l.echo == h.key
      && l.outbox == [] && l.sending == sending && l.peer.key == 0 && l.peer.host == host && l.peer.view == memory
      && l.peer.work == {} && l.peer.unreported == {} && l.peer.draft.None? && l.peer.value == cfg.largish
      && !l.peer.due && !l.peer.going
  {
    hide ConfigOk;
    assert cfg.limit >= 1 by { ConfigLimit(cfg); }
  }

  lemma ConfigLimit(cfg: Config)
    requires ConfigOk(cfg)
    ensures cfg.limit >= 1
  {
  }

  // ----- Reports -----

  /** Of a report with an old key nothing is taken but the echo; a peer that has been silent for too many keys hears the whole
      state again. */
  lemma OldReport(cfg: Config, s: System, i: nat, deal: map<nat, set<nat>>)
    requires ConfigOk(cfg) && Enabled(cfg, s, Event.Report(i, deal)) && s.links[i].outbox[0].key != s.hub.key
    ensures
      var h, l, t := s.hub, s.links[i], Step(cfg, s, Event.Report(i, deal));
      var heard := l.(outbox := l.outbox[1..], echo := l.outbox[0].key);
      && t == s.(links := s.links[i := t.links[i]])
      && if h.key < l.echo + cfg.limit then t.links[i] == heard
         else Hears(cfg, h.key, heard, t.links[i], Full(h.msgKey, h.msgEpoch, h.msgValue, l.share))
  {
    hide CanBoot, AfterBoot, OnPeerReport, ReportEmpties, Dealt;
  }

  /** The first report of a point makes it the centre, but for what has ended, and brings a new key. */
  lemma FirstPoint(cfg: Config, s: System, i: nat, deal: map<nat, set<nat>>)
    requires ConfigOk(cfg) && Enabled(cfg, s, Event.Report(i, deal)) && s.links[i].outbox[0].key == s.hub.key
    requires CanBoot(s.hub, s.links[i].outbox[0])
    ensures
      var h, r, t := s.hub, s.links[i].outbox[0], Step(cfg, s, Event.Report(i, deal)).hub;
      && t.key == h.key + 1 && !t.search.boot && t.search.value == r.value && !t.search.redistribute
      && t.search.geo == h.search.geo && t.search.level == h.search.level
      && |t.search.centre| == |h.search.centre| == |h.search.geo.ended| == |r.point|
      && forall j :: 0 <= j < |r.point| ==>
           t.search.centre[j] == if h.search.geo.ended[j] then h.search.centre[j] else r.point[j]
  {
    hide ConfigOk, FirstWork, Dealt, OnPeerReport, FrameOf, SendAll, Stale;
  }

  /** And everybody gets a share with the whole state. */
  lemma FirstHears(cfg: Config, s: System, i: nat, deal: map<nat, set<nat>>)
    requires ConfigOk(cfg) && Enabled(cfg, s, Event.Report(i, deal)) && s.links[i].outbox[0].key == s.hub.key
    requires CanBoot(s.hub, s.links[i].outbox[0])
    ensures
      var h, r, t := s.hub, s.links[i].outbox[0], Step(cfg, s, Event.Report(i, deal));
      && t.links.Keys == s.links.Keys && h.search.geo == t.hub.search.geo
      && forall k :: k in s.links ==>
           var l := if k == i then s.links[k].(outbox := s.links[k].outbox[1..], echo := r.key) else s.links[k];
           Hears(cfg, h.key + 1, l.(share := deal[k]), t.links[k],
                 Full(h.key + 1, Epoch(FrameOf(h.search.geo), t.hub.search.centre, false), r.value, deal[k]))
  {
    hide ConfigOk, FirstWork, Dealt, OnPeerReport, FrameOf, BootCentre, CodeOf, GeoOk, CentreOk;
  }

  /** Every unit of a report with the current key leaves the peer's share and waits for the sync. A find becomes the best one, and
      its value the server's, exactly if that is lower than all before; it makes the work be dealt anew, and so does a peer
      that has done all of its share. */
  lemma UnitsReported(cfg: Config, s: System, i: nat, deal: map<nat, set<nat>>)
    requires ConfigOk(cfg) && Enabled(cfg, s, Event.Report(i, deal)) && s.links[i].outbox[0].key == s.hub.key
    requires s.links[i].outbox[0].Done?
    ensures
      var h, l, t := s.hub, s.links[i], Step(cfg, s, Event.Report(i, deal));
      var r := l.outbox[0];
      var better := r.find.Some? && r.value < h.search.value;
      && t.links == s.links[i := l.(outbox := l.outbox[1..], echo := r.key, share := t.links[i].share)]
      && (forall c :: c in t.links[i].share <==> c in l.share && c !in r.units)
      && t.hub == h.(search := t.hub.search)
      && t.hub.search == h.search.(accumulated := t.hub.search.accumulated, value := t.hub.search.value,
                                   best := t.hub.search.best, redistribute := t.hub.search.redistribute)
      && (forall c :: c in t.hub.search.accumulated <==> c in h.search.accumulated || c in r.units)
      && (if better then t.hub.search.value == r.value && t.hub.search.best == r.find
          else t.hub.search.value == h.search.value && t.hub.search.best == h.search.best)
      && (t.hub.search.redistribute <==> h.search.redistribute || better || (r.units != {} && l.share <= r.units))
  {
    hide ConfigOk, AfterBoot, Ok, InRange, Dealt, Stale, SendAll, Send;
  }

  // ----- A sync -----

  lemma RunsEmpty(s: State, idle: bool)
    requires Ok(s)
    ensures Absorb(s, idle).remaining == s.remaining - s.accumulated
    ensures Absorb(s, idle).remaining == {} <==> s.remaining <= s.accumulated
  {
    hide Ok, SitesOf;
    if s.remaining - s.accumulated == {} {
      forall c | c in s.remaining ensures c in s.accumulated { assert c !in s.remaining - s.accumulated; }
    }
  }

  /** What has been reported leaves every share, unless the list has run empty by it. */
  lemma SharesTaken(cfg: Config, s: System)
    requires ConfigOk(cfg) && Enabled(cfg, s, Event.Start)
    ensures
      var was, t := s.hub.search, Step(cfg, s, Event.Start);
      && t.links.Keys == s.links.Keys
      && forall k :: k in s.links ==>
           && t.links[k] == s.links[k].(share := t.links[k].share)
           && forall c :: c in t.links[k].share <==>
                (c in s.links[k].share && (c !in was.accumulated || was.remaining <= was.accumulated))
  {
    hide Ok, ConfigOk, Recentred, Absorb, SyncEmpties;
    RunsEmpty(s.hub.search, SyncEmpties(s));
  }

  /** It becomes visited and leaves the list. With a better find its point becomes the centre; otherwise centre and level stay. */
  lemma SyncStarts(cfg: Config, s: System)
    requires ConfigOk(cfg) && Enabled(cfg, s, Event.Start)
    ensures
      var h, t := s.hub, Step(cfg, s, Event.Start).hub;
      var was, now := h.search, t.search;
      && now.visited == was.visited + SitesOf(was.geo, was.centre, was.accumulated)
      && now.accumulated == {} && now.best.None? && now.geo == was.geo && now.value == was.value && now.boot == was.boot
      && t.key == h.key && t.msgKey == h.msgKey && t.msgValue == h.msgValue
      && match was.best
         case None =>
           && now.remaining == was.remaining - was.accumulated && now.centre == was.centre && now.level == was.level
           && t.phase.Advancing? && t.msgEpoch == h.msgEpoch
         case Some(c) =>
           && now.centre == Point(was.geo, was.centre, c) && now.level == 0
           && t.phase == Recentring(was.centre, c) && t.msgEpoch == h.msgEpoch.(centre := now.centre)
  {
    hide FirstWork, Total, Site, ConfigOk, SyncEmpties, Point, SitesOf;
    SitesOfNone(s.hub.search.geo, s.hub.search.centre);
  }

  /** The work is to be dealt anew if it had to be already, or if the list or some peer's share has run empty by what was
      reported. */
  lemma SyncDealsAnew(cfg: Config, s: System)
    requires ConfigOk(cfg) && Enabled(cfg, s, Event.Start)
    ensures
      var was, now := s.hub.search, Step(cfg, s, Event.Start).hub.search;
      var done := was.accumulated;
      var dry := was.remaining <= done || exists k :: k in s.links && s.links[k].share <= done;
      now.redistribute <==> was.redistribute || (done != {} && dry)
  {
    hide Ok, FirstWork, ConfigOk, SitesOf, Point;
    var was := s.hub.search;
    RunsEmpty(was, SyncEmpties(s));
    forall share: set<nat> ensures share - was.accumulated == {} <==> share <= was.accumulated {
      assert share <= share - was.accumulated + was.accumulated;
    }
  }

  lemma SitesOfNone(g: Geometry, centre: seq<nat>)
    requires CentreOk(g, centre)
    ensures SitesOf(g, centre, {}) == {}
  {
  }

  /** Whoever a message is for gets a share of the new list with it. */
  ghost predicate AllHear(cfg: Config, key: nat, s: System, t: System, deal: map<nat, set<nat>>, m: Message)
  {
    t.links.Keys == s.links.Keys
    && forall k :: k in s.links ==>
         k in deal && Hears(cfg, key, s.links[k].(share := deal[k]), t.links[k], WithWork(m, deal[k]))
  }

  /** Whether work is to be dealt anew is asked before the levels are gone through, but in no run does it matter: where the centre
      has moved or the list is empty it is to be. */
  lemma AdvancesAnyway(cfg: Config, g: Geometry, events: seq<Event>, s: System)
    requires Runs.RunsFrom(cfg, g, events, s) && (s.hub.phase.Advancing? || s.hub.phase.Recentring?)
    ensures Ok(s.hub.search) && Advanced(s.hub) == Advance(s.hub.search)
    ensures s.hub.search.remaining == {} ==> s.hub.search.redistribute
  {
    hide Runs.RunsFrom, Safety.LinkInv, Safety.Ready, Safety.VisitedOk, CentreOk, Inside, Clean, Covered, SkipsSafely, CodeOf;
    Runs.RunInv(cfg, g, events, s);
  }

  /** A sync in which the centre has moved ends under a new key: everybody hears of it, and gets a share of the first level that
      has something to do. */
  lemma SyncRecentres(cfg: Config, s: System, next: Geometry, deal: map<nat, set<nat>>, assist: set<nat>)
    requires ConfigOk(cfg) && Enabled(cfg, s, Finish(next, deal, assist)) && Advanced(s.hub).level < s.hub.search.geo.levels
    requires s.hub.phase.Recentring?
    ensures
      var h, t := s.hub, Step(cfg, s, Finish(next, deal, assist));
      && t.hub.search == Advanced(h).(redistribute := false) && t.hub.phase.Idle? && t.hub.key == h.key + 1
      && AllHear(cfg, h.key + 1, s, t, deal, Centre(h.key + 1, h.phase.complexity, t.hub.search.value, {}))
  {
    hide Ok, Advanced, Makeable, Narrower, AllEnded, Narrowed, ConfigOk, FrameOf;
  }

  /** Where work is to be dealt anew, everybody gets a share under the old key and is asked for what has not been reported. */
  lemma SyncDeals(cfg: Config, s: System, next: Geometry, deal: map<nat, set<nat>>, assist: set<nat>)
    requires ConfigOk(cfg) && Enabled(cfg, s, Finish(next, deal, assist)) && Advanced(s.hub).level < s.hub.search.geo.levels
    requires s.hub.phase.Advancing? && s.hub.search.redistribute
    ensures
      var h, t := s.hub, Step(cfg, s, Finish(next, deal, assist));
      && t.hub == h.(search := Advanced(h).(redistribute := false), phase := Idle)
      && AllHear(cfg, h.key, s, t, deal, Work({}, true))
  {
    hide Ok, Advanced, Makeable, Narrower, AllEnded, Narrowed, ConfigOk, FrameOf;
  }

  /** Otherwise only those hear of it whom others have done work for, and nobody is asked. */
  lemma SyncAssists(cfg: Config, s: System, next: Geometry, deal: map<nat, set<nat>>, assist: set<nat>)
    requires ConfigOk(cfg) && Enabled(cfg, s, Finish(next, deal, assist)) && Advanced(s.hub).level < s.hub.search.geo.levels
    requires s.hub.phase.Advancing? && !s.hub.search.redistribute
    ensures
      var h, t := s.hub, Step(cfg, s, Finish(next, deal, assist));
      && t.hub == h.(search := Advanced(h).(redistribute := false), phase := Idle) && t.links.Keys == s.links.Keys
      && forall k :: k in s.links ==>
           if k in assist then Hears(cfg, h.key, s.links[k], t.links[k], Work(s.links[k].share, false))
           else t.links[k] == s.links[k]
  {
    hide Ok, Advanced, Makeable, Narrower, AllEnded, Narrowed, ConfigOk, FrameOf;
  }

  /** With no level left the box shrinks: either every range has ended, and the task is over, or the search starts over in the new
      box, under a new key, and everybody hears the whole state. */
  lemma SyncShrinks(cfg: Config, s: System, next: Geometry, deal: map<nat, set<nat>>, assist: set<nat>)
    requires ConfigOk(cfg) && Enabled(cfg, s, Finish(next, deal, assist)) && Advanced(s.hub).level >= s.hub.search.geo.levels
    ensures
      var h, t := s.hub, Step(cfg, s, Finish(next, deal, assist));
      && t.hub.key == h.key + 1
      && if forall j :: 0 <= j < |next.ended| ==> next.ended[j] then t.links == s.links && t.hub.phase.Converged?
         else
           && t.hub.phase.Idle? && t.hub.search.geo == next && t.hub.search.boot && t.hub.search.value == cfg.largish
           && t.hub.search.centre == Zeros(|next.grid|) && t.hub.search.level == 0 && t.hub.search.visited == {}
           && t.hub.search.accumulated == {} && t.hub.search.best.None? && !t.hub.search.redistribute
           && t.links.Keys == s.links.Keys
           && forall k :: k in s.links ==>
                Hears(cfg, h.key + 1, s.links[k], t.links[k],
                      Full(h.key + 1, Epoch(FrameOf(next), Zeros(|next.grid|), true), cfg.largish, s.links[k].share))
  {
    hide Ok, Advanced, Makeable, Narrower, ConfigOk, FrameOf, SendAll, Upto;
  }
}
