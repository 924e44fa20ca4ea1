/** `task_processor_detail`: the peer object, whose handlers do what the protocol says of a peer. */
module Processor {
  import opened Ranges
  import opened Combos
  import opened Coefficients
  import opened Positions
  import opened Demodulation
  import opened CombosBuilder
  import opened Sites
  import opened Views
  import opened Search
  import opened TaskProcessor
  import opened Protocol

  /** The reports as they go on the wire. */
  datatype Outgoing =
    | PointReport(key: nat, point: seq<nat>, value: real)
    | UnitsReport(key: nat, value: real, find: Option<nat>, ranges: seq<Range>)

  ghost function Tagged(m: Outgoing, v: View): Report {
    match m
    case PointReport(key, point, value) => Found(key, v, point, value)
    case UnitsReport(key, value, find, ranges) => Done(key, v, value, find, Union(ranges))
  }

  /** A connection with this peer, as far as the peer is concerned. */
  ghost function LinkOf(p: Peer, writing: bool): Link {
    Link(p, [], [], 0, false, false, {}, writing)
  }

  /** The coefficients and the table of a peer are those of its view. */
  ghost predicate Standing(v: View, all: seq<Coefficient>, combos: seq<Combo>, metadata: seq<Level>, top: nat) {
    && ViewOk(v) && v.frame.grid == GridOf(all) && v.frame.ended == Ended(all) && v.centre == Now(all)
    && Headed(v.seen, all) && PlacesOk(all) && EndedAtRest(all) && |all| < top
    && combos == Table(v.seen, v.levels) && metadata == Metadata(v.seen, v.levels)
  }

  class Processor {
    const coefficients: CoefficientArray
    const modem: Builder
    const remaining: RangeMap
    const unreported: RangeMap
    /** The limit on complexities the task came with, and the largest value of the index type. */
    const limit: nat
    const top: nat
    /** What a build finds where it reads past the end of a list of resolutions. */
    const beyond: (nat, nat, nat) -> nat
    var key: nat
    var value: real
    var boot: bool
    /** The report that is to go out when the pending write completes. */
    var draft: Option<Outgoing>
    /** `do_send_peer_report`, and whether the timer of the iterations runs. */
    var due: bool
    var going: bool
    /** The frame and the key of the last whole state that was taken over. */
    ghost var frame: Frame
    ghost var built: nat
    ghost var gagged: bool

    ghost predicate Valid()
      reads this`frame, this`built, this`key, this`boot, coefficients, modem, remaining, unreported
    {
      && remaining != unreported && remaining.Valid() && unreported.Valid()
      && (key != 0 ==> TableOk())
    }

    /** The table is that of the view. */
    ghost predicate TableOk()
      reads this`frame, this`built, this`boot, coefficients, modem
    {
      Standing(ViewNow(), coefficients.all, modem.combos, modem.metadata, top)
    }

    ghost function Machine(): Host { Host(limit, beyond) }

    ghost function Centre(): seq<nat>
      reads coefficients
    {
      Now(coefficients.all)
    }

    /** What the peer computes with. */
    ghost function ViewNow(): View
      reads this`frame, this`built, this`boot, coefficients
    {
      ViewOf(Machine(), built, Epoch(frame, Centre(), boot))
    }

    /** The peer as the protocol sees it. */
    ghost function Abstract(): Peer
      reads this, coefficients, remaining, unreported
    {
      Peer(key, ViewNow(), value, remaining.Contents(), unreported.Contents(),
           if draft.Some? then Some(Tagged(draft.value, ViewNow())) else None, Machine(), due, going, gagged)
    }

    constructor (grid: Grid, limit: nat, top: nat, beyond: (nat, nat, nat) -> nat)
      requires forall c :: 0 <= c < |grid| ==> grid[c] != []
      ensures Valid() && key == 0 && draft == None && this.top == top && Machine() == Host(limit, beyond)
      ensures fresh(coefficients) && fresh(modem) && fresh(remaining) && fresh(unreported)
      ensures remaining.Contents() == unreported.Contents() == {} && !due && !gagged
    {
      coefficients := new CoefficientArray(grid);
      modem := new Builder();
      remaining := new RangeMap();
      unreported := new RangeMap();
      this.limit, this.top, this.beyond := limit, top, beyond;
      key, value, boot, draft, due, going := 0, 0.0, true, None, false, false;
      frame, built, gagged := Frame([], [], []), 0, false;
      new;
      NothingKept(remaining.ranges);
      NothingKept(unreported.ranges);
    }

    /** `append_to_remaining_complexities` after the list has been cleared. */
    method ReplaceRemaining(work: seq<Range>)
      requires remaining.Valid() && Canonical(work)
      modifies remaining
      ensures remaining.Valid() && remaining.Contents() == Union(work)
    {
      hide Canonical, Union;
      remaining.Clear();
      EmptyUnion(work);
      if work != [] {
        remaining.AddAll(work);
      }
    }

    /** `demodulate` on the peer's own coefficients. */
    method Demodulate(c: nat)
      requires TableOk() && c < Span(ViewNow())
      modifies coefficients
      ensures TableOk() && ViewNow() == old(ViewNow()) && Tmp(coefficients.all) == Where(ViewNow(), c)
    {
      hide Moved, Decode, Table, Metadata, EndedAtRest, PlacesOk, ViewOf, ViewOk, Headed, Standing, Where;
      ghost var was, v := coefficients.all, ViewNow();
      StandingParts(v, was, modem.combos, modem.metadata, top);
      coefficients.offset := 0;
      ghost var calls := coefficients.calls;
      modem.Demodulate(c, coefficients, top, v.seen, v.levels);
      StandingMoved(v, was, modem.combos, modem.metadata, top, c, calls,
                    coefficients.all, coefficients.offset, coefficients.calls);
    }

    /** The coefficients and the table of a whole state: resolutions, which ranges have ended, and the saved indices. The
        table is built for as many coefficients at once as the first one has resolutions, which may read past another list. */
    method TakeOver(grid: Grid, ended: seq<bool>, ghost box: seq<Box>, centre: seq<nat>)
      requires |grid| == |ended| == |box| == |centre| == |coefficients.all| < top && limit > 0
      requires grid != [] && (forall c :: 0 <= c < |grid| ==> grid[c] != []) && |grid[0]| <= |grid|
      modifies coefficients, modem, this`frame, this`built
      ensures frame == Frame(grid, ended, box) && built == key && Centre() == centre && TableOk()
    {
      hide Table, Metadata, End, Built, PlacesOk, ViewOf, Spilled, Standing;
      frame, built := Frame(grid, ended, box), key;
      coefficients.Sync(grid, ended, centre);
      ghost var e := Epoch(frame, centre, boot);
      FoundTable(Machine(), key, e);
      var size, levels, past := modem.Build(Spilled(grid, |grid[0]|, key, beyond), limit, |grid[0]|);
      StandingAtFirst(Machine(), key, e, coefficients.all, modem.combos, modem.metadata, top);
    }

    /** `on_server_state_sync_read`, a whole state. */
    method ReadFull(newKey: nat, grid: Grid, ended: seq<bool>, ghost box: seq<Box>, centre: seq<nat>, newBoot: bool,
                    newValue: real, work: seq<Range>)
      requires Valid() && Canonical(work) && limit > 0
      requires newKey == key ==> newBoot == boot
      requires |grid| == |ended| == |box| == |centre| == |coefficients.all| < top
      requires grid != [] && (forall c :: 0 <= c < |grid| ==> grid[c] != []) && |grid[0]| <= |grid|
      modifies this, coefficients, modem, remaining, unreported
      ensures Valid()
      ensures
        Abstract() == Apply(old(Abstract()), Full(newKey, Epoch(Frame(grid, ended, box), centre, newBoot), newValue, Union(work)))
    {
      hide Standing, Canonical, Union, Tagged, ViewOf, Apply;
      ghost var p, m := Abstract(), Full(newKey, Epoch(Frame(grid, ended, box), centre, newBoot), newValue, Union(work));
      FullIs(p, m);
      boot, going := newBoot, true;
      if key != newKey {
        ReadNew(newKey, grid, ended, box, centre, newValue);
      } else {
        EmptyUnion(unreported.ranges);
        if unreported.ranges != [] {
          due := true;
        }
      }
      ReplaceRemaining(work);
    }

    /** Under a new key everything is replaced. */
    method ReadNew(newKey: nat, grid: Grid, ended: seq<bool>, ghost box: seq<Box>, centre: seq<nat>, newValue: real)
      requires remaining != unreported && remaining.Valid() && limit > 0
      requires |grid| == |ended| == |box| == |centre| == |coefficients.all| < top
      requires grid != [] && (forall c :: 0 <= c < |grid| ==> grid[c] != []) && |grid[0]| <= |grid|
      modifies this`key, this`draft, this`due, this`gagged, this`value, this`frame, this`built, coefficients, modem, unreported
      ensures Valid() && ViewNow() == ViewOf(Machine(), newKey, Epoch(Frame(grid, ended, box), centre, boot))
      ensures key == newKey && draft == None && !due && !gagged && value == newValue && unreported.Contents() == {}
    {
      hide Standing, Canonical, Union, ViewOf;
      key, draft, due, gagged, value := newKey, None, false, false, newValue;
      unreported.Clear();
      TakeOver(grid, ended, box, centre);
    }

    /** The centre moves to the point of a complexity. */
    method Recentre(complexity: nat)
      requires TableOk() && complexity < Span(ViewNow())
      modifies coefficients
      ensures TableOk() && ViewOk(old(ViewNow())) && complexity < Span(old(ViewNow()))
      ensures ViewNow() == old(ViewNow()).(centre := Where(old(ViewNow()), complexity))
    {
      hide Standing, ViewOf, Where, Span, ViewOk;
      ghost var v, from := ViewNow(), Centre();
      StandingParts(v, coefficients.all, modem.combos, modem.metadata, top);
      Demodulate(complexity);
      ghost var was := coefficients.all;
      coefficients.SaveAll();
      ViewMoved(Machine(), built, frame, from, Centre(), boot);
      StandingSaved(v, was, modem.combos, modem.metadata, top, coefficients.all);
    }

    /** `on_server_state_sync_read`, a recentring, at a peer that has read a whole state. */
    method ReadCentre(newKey: nat, complexity: nat, newValue: real, work: seq<Range>)
      requires Valid() && Canonical(work) && key != 0
      requires CanApply(Abstract(), Message.Centre(newKey, complexity, newValue, Union(work)))
      modifies this, coefficients, remaining, unreported
      ensures Valid()
      ensures Abstract() == Apply(old(Abstract()), Message.Centre(newKey, complexity, newValue, Union(work)))
    {
      hide Standing, Canonical, Union, Tagged, ViewOf, Span, Where, ViewOk;
      key, value, draft, due, going, gagged := newKey, newValue, None, false, true, false;
      unreported.Clear();
      ReplaceRemaining(work);
      Recentre(complexity);
    }

    /** `on_server_state_sync_read`, a list of complexities. `reply` is that a report is asked for. */
    method ReadWork(work: seq<Range>, reply: bool)
      requires Valid() && Canonical(work)
      modifies remaining, this`due, this`going
      ensures Valid() && Abstract() == Apply(old(Abstract()), Work(Union(work), reply))
    {
      hide Standing, Canonical, Union, ViewOf, Tagged;
      EmptyUnion(unreported.ranges);
      if reply && unreported.ranges != [] {
        due := true;
      }
      ReplaceRemaining(work);
      going := true;
    }

    /** The last unit of the first range: the one that is done next. */
    function NextUnit(): (c: nat)
      reads this, remaining
      requires remaining.Valid() && remaining.ranges != []
      ensures IsNext(remaining.Contents(), c)
    {
      hide Union, IsNext, Canonical;
      NextIsLast(remaining.ranges);
      remaining.ranges[0].End() - 1
    }

    /** `value_modified` for some coefficient. */
    method Modified() returns (some: bool)
      ensures some <==> Tmp(coefficients.all) != Centre()
    {
      for j := 0 to |coefficients.all|
        invariant forall k :: 0 <= k < j ==> Tmp(coefficients.all)[k] == Centre()[k]
      {
        if coefficients.all[j].tmp != coefficients.all[j].now {
          assert Tmp(coefficients.all)[j] != Centre()[j];
          return true;
        }
      }
      assert Tmp(coefficients.all) == Centre();
      some := false;
    }

    /** The evaluation of a unit. `likelihood` is what the objective gives at its point. */
    method Evaluate(i: nat, likelihood: real, ratio: real, ghost cfg: Config) returns (find: Option<nat>)
      requires ConfigOk(cfg) && ratio == cfg.ratio && Valid() && CanProcess(Abstract(), i)
      requires likelihood == cfg.f(Stands(Abstract(), i).0, Stands(Abstract(), i).1)
      modifies coefficients, remaining, unreported, this`value
      ensures Valid() && ViewNow() == old(ViewNow()) && Abstract() == Processed(cfg, old(Abstract()), i)
      ensures find == if Improves(cfg, old(Abstract()), i) then Some(i) else None
    {
      hide Standing, Canonical, Union, Points, Aim, Tagged, ViewOf, Where, Span, ViewOk;
      ghost var p := Abstract();
      Demodulate(i);
      StandingParts(ViewNow(), coefficients.all, modem.combos, modem.metadata, top);
      var modified := Modified();
      OnePoint(i);
      remaining.Subtract(Range(i, 1));
      unreported.Add(Range(i, 1));
      find := None;
      if modified && likelihood < Aim(ratio, value) {
        value := likelihood;
        find := Some(i);
      }
      ProcessedIs(cfg, p, i, modified && likelihood < Aim(ratio, p.value), likelihood);
    }

    /** The same, keeping the record of finds that are written over. */
    method EvaluateNoting(i: nat, likelihood: real, ratio: real, ghost writing: bool, ghost cfg: Config)
      returns (find: Option<nat>)
      requires ConfigOk(cfg) && ratio == cfg.ratio && Valid() && CanProcess(Abstract(), i)
      requires likelihood == cfg.f(Stands(Abstract(), i).0, Stands(Abstract(), i).1)
      modifies coefficients, remaining, unreported, this`value, this`gagged
      ensures Valid() && ViewNow() == old(ViewNow())
      ensures Abstract() == Processed(cfg, old(Abstract()), i).(gagged := GaggedAfter(cfg, LinkOf(old(Abstract()), writing), i))
      ensures find == if Improves(cfg, old(Abstract()), i) then Some(i) else None
    {
      hide Standing, Canonical, Union, CanProcess, Stands, Processed, Improves, GaggedAfter, ViewOf, Tagged;
      ghost var p := Abstract();
      find := Evaluate(i, likelihood, ratio, cfg);
      gagged := GaggedAfter(cfg, LinkOf(p, writing), i);
    }

    /** `on_process_timeout`. With nothing left the iterations stop, until a message comes. Otherwise one unit is done, and a
        report made if there is a find, if nothing remains, or if one is due. `writing` says that a write is pending. */
    method OnProcessTimeout(likelihood: real, ratio: real, writing: bool, ghost cfg: Config) returns (sent: Option<Outgoing>)
      requires ConfigOk(cfg) && ratio == cfg.ratio && Valid() && going && (draft.Some? ==> writing)
      requires remaining.ranges != [] ==>
                 && CanProcess(Abstract(), NextUnit())
                 && likelihood == cfg.f(Stands(Abstract(), NextUnit()).0, Stands(Abstract(), NextUnit()).1)
      modifies this, coefficients, remaining, unreported
      ensures Valid() && ViewNow() == old(ViewNow())
      ensures old(remaining.Contents()) == {} ==> sent == None && Abstract() == Resting(old(Abstract()))
      ensures
        old(remaining.Contents()) != {} ==>
          old(remaining.ranges) != []
          && var t := Process(cfg, LinkOf(old(Abstract()), writing), old(NextUnit()));
          Abstract() == t.peer && t.outbox == if sent.Some? then [Tagged(sent.value, ViewNow())] else []
    {
      hide Standing, Canonical, Union, CanProcess, Stands, ViewOf, IsNext, Process, Tagged;
      EmptyUnion(remaining.ranges);
      sent := None;
      if remaining.ranges == [] {
        going := false;
      } else {
        sent := DoUnit(NextUnit(), likelihood, ratio, writing, cfg);
      }
    }

    method DoUnit(i: nat, likelihood: real, ratio: real, writing: bool, ghost cfg: Config) returns (sent: Option<Outgoing>)
      requires ConfigOk(cfg) && ratio == cfg.ratio && Valid() && CanProcess(Abstract(), i) && (draft.Some? ==> writing)
      requires likelihood == cfg.f(Stands(Abstract(), i).0, Stands(Abstract(), i).1)
      modifies this, coefficients, remaining, unreported
      ensures Valid() && ViewNow() == old(ViewNow())
      ensures
        var t := Process(cfg, LinkOf(old(Abstract()), writing), i);
        Abstract() == t.peer && t.outbox == if sent.Some? then [Tagged(sent.value, ViewNow())] else []
    {
      hide Standing, Canonical, Union, Processed, Improves, CanProcess, Stands, Aim, ViewOf, GaggedAfter, Process, Reports,
           DoneReport, Tagged, Reporting;
      ghost var p := Abstract();
      ghost var l := LinkOf(p, writing);
      var find := EvaluateNoting(i, likelihood, ratio, writing, cfg);
      EmptyUnion(remaining.ranges);
      ProcessedKeeps(cfg, p, i);
      ProcessIs(cfg, l, i);
      sent := None;
      if find.Some? || remaining.ranges == [] || due {
        sent := ReportUnits(find, writing, l);
      }
    }

    /** The report about units, after which the iterations go on only if it had been due. */
    method ReportUnits(find: Option<nat>, writing: bool, ghost l: Link) returns (sent: Option<Outgoing>)
      requires Valid() && l.outbox == [] && l.sending == writing
      modifies this`draft, this`due, this`going, unreported
      ensures Valid() && ViewNow() == old(ViewNow())
      ensures
        var p := old(Abstract());
        var t := Reporting(l, p.(due := false, going := p.due), Done(p.key, p.view, p.value, find, p.unreported));
        Abstract() == t.peer && t.outbox == if sent.Some? then [Tagged(sent.value, ViewNow())] else []
    {
      hide Standing, Canonical, Union, ViewOf, Tagged;
      TaggedUnits(key, value, find, unreported.ranges, ViewNow());
      sent := Report(UnitsReport(key, value, find, unreported.ranges), writing);
      due, going := false, due;
    }

    /** `on_bootstrapping_process_timeout` at the point that chance has given to what has not ended. Around the centre itself
        nothing is computed. */
    method OnBootstrappingTimeout(point: seq<nat>, likelihood: real, ratio: real, writing: bool, ghost cfg: Config)
      returns (sent: Option<Outgoing>)
      requires ConfigOk(cfg) && ratio == cfg.ratio && Valid() && going && |point| == |coefficients.all|
      requires CanBootstrap(Abstract(), point) && unreported.ranges == [] && (draft.Some? ==> writing)
      requires forall c :: 0 <= c < |point| && coefficients.all[c].ended ==> point[c] == coefficients.all[c].now
      requires likelihood == cfg.f(frame, point)
      modifies coefficients, this`value, this`going, this`draft, unreported
      ensures Valid() && ViewNow() == old(ViewNow())
      ensures
        var t := Bootstrap(cfg, LinkOf(old(Abstract()), writing), point);
        Abstract() == t.peer && t.outbox == if sent.Some? then [Tagged(sent.value, ViewNow())] else []
    {
      hide Standing, Canonical, Union, Aim, ViewOf, Tagged, PointOk;
      ghost var was, v := coefficients.all, ViewNow();
      EmptyUnion(unreported.ranges);
      ViewFrame(Machine(), built, Epoch(frame, Centre(), boot));
      coefficients.ValueOnBootstrap(point);
      StandingTried(v, was, modem.combos, modem.metadata, top, coefficients.all, point);
      var modified := Modified();
      sent := None;
      if modified && likelihood < Aim(ratio, value) {
        value, going := likelihood, false;
        TaggedPoint(key, point, likelihood, ViewNow());
        sent := Report(PointReport(key, point, likelihood), writing);
      }
    }

    /** Sends the report now, or leaves it to the completion of the pending write. */
    method Report(m: Outgoing, writing: bool) returns (sent: Option<Outgoing>)
      requires Valid()
      modifies this`draft, unreported
      ensures Valid() && ViewNow() == old(ViewNow())
      ensures writing ==> sent == None && Abstract() == old(Abstract()).(draft := Some(Tagged(m, ViewNow())))
      ensures !writing ==> sent == Some(m) && Abstract() == old(Abstract()).(unreported := {})
    {
      hide Standing, Canonical, Union, ViewOf;
      sent := None;
      if writing {
        draft := Some(m);
      } else {
        sent := Some(m);
        unreported.Clear();
      }
    }

    /** `on_rollback_report_timeout`. */
    method OnRollbackTimeout()
      requires Valid()
      modifies this`due
      ensures Valid() && ViewNow() == old(ViewNow())
      ensures Abstract() == Due(LinkOf(old(Abstract()), false)).peer
    {
      hide Standing, Canonical, Union, ViewOf, Tagged;
      EmptyUnion(unreported.ranges);
      if unreported.ranges != [] {
        due := true;
      }
    }

    /** The pending write is through: `on_peer_report_write` where a draft waits, `on_write` otherwise. */
    method OnWrite() returns (sent: Option<Outgoing>)
      requires Valid()
      modifies this`draft, unreported
      ensures Valid() && ViewNow() == old(ViewNow())
      ensures
        var t := Sent(LinkOf(old(Abstract()), true));
        && Abstract() == t.peer && t.outbox == (if sent.Some? then [Tagged(sent.value, ViewNow())] else [])
        && t.sending == sent.Some?
    {
      hide Standing, Canonical, Union, ViewOf;
      sent := draft;
      if draft.Some? {
        draft := None;
        unreported.Clear();
      }
    }
  }

  lemma ProcessedIs(cfg: Config, p: Peer, c: nat, better: bool, likelihood: real)
    requires ConfigOk(cfg) && CanProcess(p, c) && likelihood == cfg.f(Stands(p, c).0, Stands(p, c).1)
    requires better <==> Stands(p, c).1 != p.view.centre && likelihood < Aim(cfg.ratio, p.value)
    ensures better == Improves(cfg, p, c)
    ensures Processed(cfg, p, c)
         == p.(value := if better then likelihood else p.value, work := p.work - {c}, unreported := p.unreported + {c})
  {
    hide Aim, CanProcess, Stands;
  }

  lemma ProcessedKeeps(cfg: Config, p: Peer, c: nat)
    requires ConfigOk(cfg) && CanProcess(p, c)
    ensures
      var q := Processed(cfg, p, c);
      && q.key == p.key && q.view == p.view && q.draft == p.draft && q.due == p.due && q.going == p.going && q.host == p.host
      && q.gagged == p.gagged
  {
    hide Aim, CanProcess, Stands;
  }

  lemma ProcessIs(cfg: Config, l: Link, c: nat)
    requires ConfigOk(cfg) && CanProcess(l.peer, c)
    ensures
      var p, q := l.peer, Processed(cfg, l.peer, c).(gagged := GaggedAfter(cfg, l, c));
      var find := if Improves(cfg, p, c) then Some(c) else None;
      Process(cfg, l, c) ==
        if find.Some? || q.work == {} || p.due then
          Reporting(l, q.(due := false, going := p.due), Done(q.key, q.view, q.value, find, q.unreported))
        else l.(peer := q)
  {
    hide CanProcess, Improves, Processed, GaggedAfter, Reporting;
  }

  lemma TaggedPoint(key: nat, point: seq<nat>, value: real, v: View)
    ensures Tagged(PointReport(key, point, value), v) == Found(key, v, point, value)
  {
  }

  lemma FullIs(p: Peer, m: Message)
    requires m.Full?
    ensures m.key != p.key ==>
              Apply(p, m) == Peer(m.key, ViewOf(p.host, m.key, m.epoch), m.value, m.work, {}, None, p.host, false, true, false)
    ensures m.key == p.key ==> Apply(p, m) == p.(work := m.work, due := p.due || p.unreported != {}, going := true)
  {
  }

  lemma ViewFrame(host: Host, key: nat, e: Epoch)
    ensures ViewOf(host, key, e).frame == e.frame && ViewOf(host, key, e).centre == e.centre
  {
  }

  lemma StandingParts(v: View, all: seq<Coefficient>, combos: seq<Combo>, metadata: seq<Level>, top: nat)
    requires Standing(v, all, combos, metadata, top)
    ensures ViewOk(v) && v.centre == Now(all) && GridOk(v.seen, v.levels) && Headed(v.seen, all)
    ensures EndedAtRest(all) && |all| < top
    ensures combos == Table(v.seen, v.levels) && metadata == Metadata(v.seen, v.levels) && Span(v) == End(v.seen, v.levels)
  {
  }

  /** A run of `demodulate` moves nothing but the working values. */
  lemma StandingMoved(v: View, was: seq<Coefficient>, combos: seq<Combo>, metadata: seq<Level>, top: nat, c: nat,
                      calls: seq<nat>, now: seq<Coefficient>, offset: nat, called: seq<nat>)
    requires Standing(v, was, combos, metadata, top) && c < Span(v)
    requires Moved(v.seen, Decode(v.seen, v.levels, c), was, 0, calls, now, offset, called, 0)
    ensures Standing(v, now, combos, metadata, top) && Now(now) == Now(was) && Tmp(now) == Where(v, c)
  {
    hide Moved, Decode, Table, Metadata, EndedAtZero, End;
    MovedAll(v.seen, v.levels, c, was, 0, calls, now, offset, called);
    assert GridOf(now) == GridOf(was) && Ended(now) == Ended(was) && Now(now) == Now(was);
    WhereEnded(v, c);
    forall j | 0 <= j < |now| && now[j].ended ensures now[j].tmp == now[j].now {
      assert v.frame.ended[j] && Tmp(now)[j] == v.centre[j];
    }
  }

  lemma WhereEnded(v: View, c: nat)
    requires ViewOk(v) && c < Span(v)
    ensures forall j :: 0 <= j < |v.seen| && v.frame.ended[j] ==> Where(v, c)[j] == v.centre[j]
  {
    hide Decode, End;
  }

  /** The working point becomes the centre. */
  lemma StandingSaved(v: View, was: seq<Coefficient>, combos: seq<Combo>, metadata: seq<Level>, top: nat,
                      now: seq<Coefficient>)
    requires Standing(v, was, combos, metadata, top) && |now| == |was|
    requires forall c :: 0 <= c < |was| ==> now[c] == was[c].(now := was[c].tmp)
    ensures Now(now) == Tmp(was) && Standing(v.(centre := Tmp(was)), now, combos, metadata, top)
  {
    hide Table, Metadata;
    assert GridOf(now) == GridOf(was) && Ended(now) == Ended(was) && Now(now) == Tmp(was);
  }

  /** Trying a point moves nothing but the working values. */
  lemma StandingTried(v: View, was: seq<Coefficient>, combos: seq<Combo>, metadata: seq<Level>, top: nat,
                      now: seq<Coefficient>, point: seq<nat>)
    requires Standing(v, was, combos, metadata, top) && |now| == |was| == |point|
    requires forall c :: 0 <= c < |was| && was[c].ended ==> point[c] == was[c].now
    requires forall c :: 0 <= c < |was| ==> now[c] == was[c].(tmp := if was[c].ended then was[c].tmp else point[c])
    ensures Standing(v, now, combos, metadata, top) && Now(now) == Now(was) && Tmp(now) == point
  {
    hide Table, Metadata;
    assert GridOf(now) == GridOf(was) && Ended(now) == Ended(was) && Now(now) == Now(was);
  }

  /** How a whole state leaves the coefficients and the table. */
  lemma StandingAtFirst(host: Host, key: nat, e: Epoch, all: seq<Coefficient>, combos: seq<Combo>, metadata: seq<Level>,
                        top: nat)
    requires Buildable(e.frame) && e.frame.grid == GridOf(all) && e.frame.ended == Ended(all)
    requires Now(all) == Tmp(all) == e.centre && PlacesOk(all) && |all| < top
    requires
      var v := ViewOf(host, key, e);
      GridOk(v.seen, v.levels) && combos == Table(v.seen, v.levels) && metadata == Metadata(v.seen, v.levels)
    ensures Standing(ViewOf(host, key, e), all, combos, metadata, top)
  {
    hide Built, Table, Metadata, Spilled;
    var seen := ListsFound(host, key, e.frame);
    forall j | 0 <= j < |all| ensures seen[j] != [] && seen[j][0] == all[j].resolutions[0] && all[j].tmp == all[j].now {
      assert e.frame.grid[j] <= seen[j] && e.frame.grid[j] == all[j].resolutions;
      assert Now(all)[j] == Tmp(all)[j];
    }
  }

  lemma TaggedUnits(key: nat, value: real, find: Option<nat>, ranges: seq<Range>, v: View)
    ensures Tagged(UnitsReport(key, value, find, ranges), v) == Done(key, v, value, find, Union(ranges))
  {
  }

  /** The unit done next is the last one of the first run. */
  lemma NextIsLast(m: seq<Range>)
    requires Canonical(m) && m != []
    ensures 0 <= m[0].End() - 1 && IsNext(Union(m), m[0].End() - 1)
  {
    var end := m[0].End();
    assert m == [m[0]] + m[1..];
    UnionConcat([m[0]], m[1..]);
    UnionOne(m[0]);
    forall k | 0 <= k < |m[1..]| ensures end + 1 <= m[1..][k].start {
      assert m[1..][k] == m[k + 1];
    }
    UnionAbove(m[1..], end + 1);
    hide Union;
    assert Within(end - 1, m[0]);
  }
}
