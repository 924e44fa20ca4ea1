/** A run of one coefficient and two peers in which a waiting find is written over. Whether the server then comes to shrink next
    to a better point, the lost finds alone do not tell. */
module LostFind {
  import opened Ranges
  import opened Combos
  import opened Coefficients
  import opened Positions
  import opened Tables
  import opened Zooming
  import opened Sites
  import opened Views
  import opened Duplicates
  import opened Search
  import opened Protocol
  import opened Safety
  import opened Runs
  import opened Values
  import opened Optimum

  /** One coefficient with seven steps. */
  const GEO := Geometry([[7]], 1, [false], [Box(0.0, 1.0, 0.0)])
  const FRAME := FrameOf(GEO)
  const HOST := Host(7, (key: nat, c: nat, i: nat) => 0)

  /** The value at index 0 is a parameter. */
  function Objective(x: real, p: seq<nat>): real {
    if p == [0] then x else if p == [1] then 1.0 else if p == [3] then 1.05 else if p == [6] then 2.0 else 3.0
  }

  function Cfg(ratio: real, x: real): Config { Config((frame, p) => Objective(x, p), ratio, 10.0, 5, 7) }

  function All(): set<nat> { {0, 1, 2, 3, 4, 5, 6} }

  /** The complexities but the one of the centre, as they are dealt to two peers. */
  function Units(): set<nat> { {0, 1, 2, 3, 4, 5} }

  function Low(): set<nat> { {0, 1, 2} }

  function High(): set<nat> { {3, 4, 5} }

  lemma Dealing()
    ensures Low() + High() == Units() && Units() == All() - {6} && Low() <= Units() && High() <= Units()
    ensures Low() - Low() == {} && High() - High() == {} && Units() - Units() == {} && All() - All() == {}
    ensures Low() != {} && High() != {} && Units() != {} && {} + Low() == Low()
  {
  }

  /** From 2.0, the value 1.05 is an improvement, and from 1.0, `x` is none. */
  ghost predicate Given(ratio: real, x: real) {
    ratio >= 1.0 && 1.05 < Aim(ratio, 2.0) && Aim(ratio, 1.0) <= x
  }

  lemma GivenFacts(ratio: real, x: real)
    requires Given(ratio, x)
    ensures 1.05 < Aim(ratio, 2.0) && Aim(ratio, 1.0) <= x && ConfigOk(Cfg(ratio, x))
  {
  }

  // ----- The table of the grid -----

  lemma GridFacts()
    ensures GeoOk(GEO) && First(GEO.grid) == [7] && GridOk(GEO.grid, 1)
    ensures Subsets(0, 1, 1) == [[0]] && SubOk(GEO.grid, 0, [0]) && Radices(GEO.grid, 0, [0]) == [7]
    ensures Product([7]) == 7
  {
    assert Res(GEO.grid, 0, 0) == 7;
    assert GridOk(GEO.grid, 1);
    assert FineGrid(GEO.grid, 1);
    assert First(GEO.grid) == [7];
    assert Subsets(1, 0, 1) == [[]] && Subsets(1, 1, 1) == [];
    assert [0] + [] == [0] && Under([0], [[]])[0] == [0] + [];
    assert Under([0], [[]]) == [[0]];
    assert [7][..0] == [];
    assert SubOk(GEO.grid, 0, [0]);
    assert Radices(GEO.grid, 0, [0]) == [7];
  }

  lemma TotalIs()
    ensures GeoOk(GEO) && Total(GEO) == 7 && Upto(GEO, 0) == 0 && Upto(GEO, 1) == 7
  {
    GridFacts();
    var grid := GEO.grid;
    LevelSubsOk(grid, 0);
    assert [[0]][1..] == [];
    assert LaySize(grid, 0, []) == 0;
    assert LaySize(grid, 0, [[0]]) == 7;
    assert LevelSize(grid, 0) == 7;
    assert End(grid, 0) == 0 && End(grid, 1) == 7;
  }

  lemma DigitIs(c: nat)
    requires c < 7
    ensures Digits([7], c) == [c]
  {
    assert [7][..0] == [];
    assert Product([]) == 1;
    assert c / 1 == c && c % 1 == 0;
    assert Digits([], 0) == [];
  }

  lemma SpotIs(c: nat)
    requires c < 7
    ensures GridOk(GEO.grid, 1) && c < LevelSize(GEO.grid, 0) && Spot(GEO.grid, 0, c) == Move(0, 0, [0], [c])
  {
    hide GeoOk, First, FineGrid, Subsets, Product, Radices, SubOk, Digits;
    GridFacts();
    DigitIs(c);
    LevelSubsOk(GEO.grid, 0);
    assert [[0]][1..] == [];
    assert LaySize(GEO.grid, 0, [[0]]) == 7;
  }

  lemma DecodeIs(c: nat)
    requires c < 7
    ensures GeoOk(GEO) && c < Total(GEO)
    ensures Decode(GEO.grid, 1, c) == Move(0, 0, [0], [c])
  {
    hide LevelSize, Spot, FineGrid;
    TotalIs();
    SpotIs(c);
    assert Total(GEO) == End(GEO.grid, 1) && End(GEO.grid, 0) == 0;
    LevelUnique(GEO.grid, 1, c, 0);
  }

  lemma PointIs(k: nat, c: nat)
    requires k < 7 && c < 7
    ensures CentreOk(GEO, [k]) && c < Total(GEO) && Point(GEO, [k], c) == [c]
    ensures CodeOf(GEO, [k]) == k && Site(GEO, [k], c) == c
  {
    DecodeIs(c);
    GridFacts();
    assert InRange(First(GEO.grid), [k]);
    assert CentreOk(GEO, [k]);
    RescaleIdentity(c, 7);
    var m := Move(0, 0, [0], [c]);
    assert IndexIn([0], 0) == 0;
    assert TargetAt(GEO.grid, m, [false], [k], 0) == c;
    assert Point(GEO, [k], c) == [c];
    CodeIs(k);
    CodeIs(c);
  }

  lemma CodeIs(k: nat)
    requires First(GEO.grid) == [7] && GeoOk(GEO)
    ensures CodeOf(GEO, [k]) == k
  {
    assert Code([], []) == 0 && [7][1..] == [] && [k][1..] == [];
    assert Code([7], [k]) == k + 0 * 7;
  }

  lemma LevelIs()
    ensures Built(GEO.grid, 7, 1, 0) == (1, false) && Made(GEO, 7, 1) && Makeable(7, GEO)
  {
    TotalIs();
    GridFacts();
    hide Total, End, LevelEnding, Built, GeoOk;
    LevelCompleteIff(GEO.grid, 0, 7);
    assert Total(GEO) == End(GEO.grid, 1);
    BuiltStep(GEO.grid, 7, 1, 0);
    BuiltStart(GEO.grid, 7, 1);
    assert Fine(GEO.grid[0]);
  }

  // ----- What the peers see -----

  const START := Epoch(FRAME, [0], true)
  const NEAR := Epoch(FRAME, [6], false)

  function Sees(e: Epoch): View { View(e.frame, [[7]], 1, e.centre, e.boot) }

  lemma ViewIs(key: nat, e: Epoch)
    requires e.frame == FRAME
    ensures ViewOf(HOST, key, e) == Sees(e)
  {
    LevelIs();
    hide Built;
  }

  lemma WhereIs(k: nat, c: nat)
    requires k < 7 && c < 7
    ensures var v := Sees(Epoch(FRAME, [k], false)); ViewOk(v) && Span(v) == 7 && Where(v, c) == [c]
  {
    TotalIs();
    GridFacts();
    PointIs(k, c);
    hide Total, End, Point, Position, GeoOk;
    assert Total(GEO) == End(GEO.grid, 1);
    assert Point(GEO, [k], c) == Position(GEO.grid, 1, GEO.ended, [k], c);
  }

  // ----- The states of the run -----

  function Booting(redistribute: bool): State {
    State(GEO, [0], 0, All(), {}, {}, true, 10.0, None, redistribute)
  }

  function HubAtStart(redistribute: bool, seen: Seen): Hub {
    Hub(Booting(redistribute), 1, 1, START, 10.0, Idle, 7, seen, {}, {})
  }

  function Near(accumulated: set<nat>, value: real, best: Option<nat>): State {
    State(GEO, [6], 0, Units(), accumulated, {6}, false, value, best, accumulated != {})
  }

  function HubNear(search: State, seen: Seen, lost: set<Loss>, overlooked: set<seq<nat>>): Hub {
    Hub(search, 2, 2, NEAR, 2.0, Idle, 7, seen, lost, overlooked)
  }

  function At(h: Hub, first: Link, second: Link): System { System(h, map[0 := first, 1 := second]) }

  const START_STATE := Full(1, START, 10.0, {})

  function NearState(work: set<nat>): Message { Full(2, NEAR, 2.0, work) }

  /** A peer that has been taken on; `memory` is whatever it remembers. */
  function New(memory: View): Link {
    Link(Peer(0, memory, 10.0, {}, {}, None, HOST, false, false, false), [START_STATE], [], 1, true, false, {}, false)
  }

  function Started(value: real, going: bool): Peer { Peer(1, Sees(START), value, {}, {}, None, HOST, false, going, false) }

  function AtNear(value: real, work: set<nat>, unreported: set<nat>, draft: Option<Report>, due: bool, going: bool, gagged: bool)
    : Peer
  {
    Peer(2, Sees(NEAR), value, work, unreported, draft, HOST, due, going, gagged)
  }

  /** The first peer before and after its units, and the second one. */
  function FirstHanded(): Peer { AtNear(2.0, Low(), {}, None, false, true, false) }

  function SecondHanded(): Peer { AtNear(2.0, High(), {}, None, false, true, false) }

  function FirstDone(): Peer { AtNear(1.0, {}, {}, None, false, false, true) }

  function SecondDone(): Peer { AtNear(1.05, {}, {}, None, false, false, false) }

  const LOSS := Loss([6], 1, 1.0)

  function FoundReport(): Report { Done(2, Sees(NEAR), 1.0, Some(1), {1, 2}) }

  function LastReport(): Report { Done(2, Sees(NEAR), 1.0, None, Low()) }

  function OtherReport(): Report { Done(2, Sees(NEAR), 1.05, Some(3), High()) }

  // ----- The steps -----

  lemma FreshIs(ratio: real, x: real)
    ensures GeoOk(GEO) && 1 <= GEO.levels
    ensures Protocol.Fresh(Cfg(ratio, x), GEO) == System(HubAtStart(false, {}), map[])
  {
    TotalIs();
    assert Zeros(1) == [0];
    assert Points(Range(0, 7)) == All();
  }

  lemma Joins(ratio: real, x: real, memory: View)
    requires Given(ratio, x)
    ensures
      var cfg, s, t, u := Cfg(ratio, x), System(HubAtStart(false, {}), map[]), System(HubAtStart(true, {}), map[0 := New(memory)]),
                          At(HubAtStart(true, {}), New(memory), New(memory));
      && ConfigOk(cfg) && Enabled(cfg, s, Join(0, memory, HOST, false)) && Step(cfg, s, Join(0, memory, HOST, false)) == t
      && Enabled(cfg, t, Join(1, memory, HOST, false)) && Step(cfg, t, Join(1, memory, HOST, false)) == u
  {
    assert [] + [START_STATE] == [START_STATE];
    var h := HubAtStart(false, {});
    assert Newcomer(Cfg(ratio, x), h, memory, HOST, false) == New(memory);
    assert Newcomer(Cfg(ratio, x), HubAtStart(true, {}), memory, HOST, false) == New(memory);
    var m: map<nat, Link> := map[];
    assert m[0 := New(memory)] == map[0 := New(memory)];
  }

  /** A link on which the server's write is under way. */
  function On(p: Peer, inbox: seq<Message>, outbox: seq<Report>, echo: nat, late: bool, share: set<nat>, sending: bool): Link {
    Link(p, inbox, outbox, echo, true, late, share, sending)
  }

  /** A whole state under a new key is taken over. */
  lemma ReadIs(p: Peer, key: nat, e: Epoch, value: real, work: set<nat>)
    requires p.host == HOST && e.frame == FRAME && key != p.key
    ensures Apply(p, Full(key, e, value, work)) == Peer(key, Sees(e), value, work, {}, None, HOST, false, true, false)
  {
    ViewIs(key, e);
  }

  lemma FirstReads(cfg: Config, h: Hub, memory: View)
    requires ConfigOk(cfg)
    ensures
      var s, t := At(h, New(memory), New(memory)), At(h, On(Started(10.0, true), [], [], 1, false, {}, false), New(memory));
      Enabled(cfg, s, ReadMessage(0)) && Step(cfg, s, ReadMessage(0)) == t
  {
    ReadIs(New(memory).peer, 1, START, 10.0, {});
    assert [START_STATE][1..] == [];
    hide Apply;
    var s := At(h, New(memory), New(memory));
    assert Step(cfg, s, ReadMessage(0)).links == At(h, On(Started(10.0, true), [], [], 1, false, {}, false), New(memory)).links;
  }

  lemma PointIn()
    ensures PointOk(FRAME, [6]) && InRange(First(GEO.grid), [6])
  {
    GridFacts();
  }

  const REPORTED := Found(1, Sees(START), [6], 2.0)

  lemma Tries(ratio: real, x: real, second: Link)
    requires Given(ratio, x)
    ensures
      var cfg, h := Cfg(ratio, x), HubAtStart(true, {});
      var s := At(h, On(Started(10.0, true), [], [], 1, false, {}, false), second);
      var t := At(HubAtStart(true, {(FRAME, [6])}), On(Started(2.0, false), [], [REPORTED], 1, false, {}, true), second);
      ConfigOk(cfg) && Enabled(cfg, s, TryPoint(0, [6])) && Step(cfg, s, TryPoint(0, [6])) == t
  {
    PointIn();
    assert [] + [REPORTED] == [REPORTED];
    hide PointOk;
    var q := 1.0 / ratio;
    assert 2.0 * q > 1.05;
    assert Aim(ratio, 10.0) == 10.0 * q;
    var s := At(HubAtStart(true, {}), On(Started(10.0, true), [], [], 1, false, {}, false), second);
    assert Step(Cfg(ratio, x), s, TryPoint(0, [6])).links
        == At(HubAtStart(true, {}), On(Started(2.0, false), [], [REPORTED], 1, false, {}, true), second).links;
  }

  lemma FirstWorkIs(centre: nat, visited: set<nat>)
    requires centre < 7
    ensures CentreOk(GEO, [centre]) && FirstWork(GEO, [centre], visited) == All() - visited
    ensures CodeOf(GEO, [centre]) == centre
  {
    hide Point, CodeOf, CentreOk, GeoOk, Total, Upto, Site;
    TotalIs();
    PointIs(centre, 0);
    assert FirstWork(GEO, [centre], visited) == Sites.Fresh(GEO, [centre], visited, 0, 7);
    forall c | 0 <= c < 7 ensures c in FirstWork(GEO, [centre], visited) <==> c !in visited {
      PointIs(centre, c);
    }
  }

  lemma NearOk(accumulated: set<nat>, value: real, best: Option<nat>)
    requires accumulated <= Units() && (best.Some? ==> best.value < 7)
    ensures Ok(Near(accumulated, value, best)) && Ok(Booting(true))
  {
    hide Point, CodeOf, Site;
    TotalIs();
    GridFacts();
    PointIs(6, 0);
    PointIs(0, 0);
  }

  lemma BootIs()
    ensures Ok(Booting(true)) && InRange(First(GEO.grid), [6])
    ensures OnBootReport(Booting(true), [6], 2.0) == Near({}, 2.0, None)
  {
    hide Point, CodeOf, CentreOk, GeoOk, Total, Upto, Site, FirstWork, InRange, PointOk, First, Inside, OnBootReport;
    NearOk({}, 2.0, None);
    PointIn();
    FirstWorkIs(6, {6});
    Dealing();
    OkParts(Booting(true));
    BootFrom();
  }

  lemma OkParts(s: State)
    requires Ok(s)
    ensures CentreOk(s.geo, s.centre)
  {
  }

  lemma BootFrom()
    requires Ok(Booting(true)) && InRange(First(GEO.grid), [6]) && CentreOk(GEO, [0]) && CentreOk(GEO, [6])
    requires CodeOf(GEO, [6]) == 6 && FirstWork(GEO, [6], {6}) == Units()
    ensures OnBootReport(Booting(true), [6], 2.0) == Near({}, 2.0, None)
  {
    hide Point, CodeOf, CentreOk, Total, Upto, Site, FirstWork, InRange, First, Ok;
    BootCentreOk(GEO, [0], [6]);
    assert BootCentre(GEO, [0], [6]) == [6];
  }

  const SEEN := {(FRAME, [6])}
  const NEAR_HUB := HubNear(Near({}, 2.0, None), SEEN, {}, {})
  const DEAL: map<nat, set<nat>> := map[0 := Low(), 1 := High()]

  lemma AfterBootIs()
    ensures CanBoot(HubAtStart(true, SEEN), REPORTED) && AfterBoot(HubAtStart(true, SEEN), REPORTED) == NEAR_HUB
  {
    hide Ok, OnBootReport, InRange;
    BootIs();
  }

  /** While a write is under way, what is to be sent only marks the peer as late. */
  lemma BootStep(cfg: Config, h: Hub, h': Hub, first: Link, second: Link, r: Report, deal: map<nat, set<nat>>)
    requires ConfigOk(cfg) && h.phase.Idle? && CanBoot(h, r) && r.key == h.key && AfterBoot(h, r) == h' && first.outbox == [r]
    requires first.writing && second.writing && 0 in deal && 1 in deal && Dealt(h', map[0 := first, 1 := second], deal)
    ensures
      var s := At(h, first, second);
      && Enabled(cfg, s, Event.Report(0, deal))
      && Step(cfg, s, Event.Report(0, deal))
         == At(h', first.(outbox := [], echo := r.key, share := deal[0], late := true), second.(share := deal[1], late := true))
  {
    hide CanBoot, AfterBoot;
    assert [r][1..] == [];
    var s := At(h, first, second);
    assert Step(cfg, s, Event.Report(0, deal)).links
        == At(h', first.(outbox := [], echo := r.key, share := deal[0], late := true),
              second.(share := deal[1], late := true)).links;
  }

  /** The server recentres; both peers are marked as late, since writes to them are under way. */
  lemma Boots(ratio: real, x: real, memory: View)
    requires Given(ratio, x)
    ensures
      var cfg, e := Cfg(ratio, x), Event.Report(0, DEAL);
      var s := At(HubAtStart(true, SEEN), On(Started(2.0, false), [], [REPORTED], 1, false, {}, true), New(memory));
      var t := At(NEAR_HUB, On(Started(2.0, false), [], [], 1, true, Low(), true), New(memory).(late := true, share := High()));
      ConfigOk(cfg) && Enabled(cfg, s, e) && Step(cfg, s, e) == t
  {
    hide Given, Aim, Cfg, ConfigOk, CanBoot, AfterBoot, Enabled, Step;
    GivenFacts(ratio, x);
    AfterBootIs();
    BootStep(Cfg(ratio, x), HubAtStart(true, SEEN), NEAR_HUB, On(Started(2.0, false), [], [REPORTED], 1, false, {}, true),
             New(memory), REPORTED, DEAL);
  }

  /** The writes complete, and the whole states go out. */
  lemma CatchesUp(ratio: real, x: real, memory: View)
    requires Given(ratio, x)
    ensures
      var cfg := Cfg(ratio, x);
      var s := At(NEAR_HUB, On(Started(2.0, false), [], [], 1, true, Low(), true), New(memory).(late := true, share := High()));
      var t := At(NEAR_HUB, On(Started(2.0, false), [NearState(Low())], [], 1, false, Low(), true),
                  New(memory).(late := true, share := High()));
      var u := At(NEAR_HUB, On(Started(2.0, false), [NearState(Low())], [], 1, false, Low(), true),
                  New(memory).(inbox := [START_STATE, NearState(High())], share := High()));
      && ConfigOk(cfg) && Enabled(cfg, s, WriteDone(0)) && Step(cfg, s, WriteDone(0)) == t
      && Enabled(cfg, t, WriteDone(1)) && Step(cfg, t, WriteDone(1)) == u
  {
    assert [] + [NearState(Low())] == [NearState(Low())];
    assert [START_STATE] + [NearState(High())] == [START_STATE, NearState(High())];
    var cfg := Cfg(ratio, x);
    var first, second := On(Started(2.0, false), [], [], 1, true, Low(), true), New(memory).(late := true, share := High());
    assert Written(cfg, NEAR_HUB, first) == On(Started(2.0, false), [NearState(Low())], [], 1, false, Low(), true);
    assert Written(cfg, NEAR_HUB, second) == New(memory).(inbox := [START_STATE, NearState(High())], share := High());
    hide Written;
    var s := At(NEAR_HUB, first, second);
    var t := At(NEAR_HUB, On(Started(2.0, false), [NearState(Low())], [], 1, false, Low(), true), second);
    assert Step(cfg, s, WriteDone(0)).links == t.links;
    assert Step(cfg, t, WriteDone(1)).links
        == At(NEAR_HUB, t.links[0], New(memory).(inbox := [START_STATE, NearState(High())], share := High())).links;
  }

  /** Both peers, around the new centre. */
  function Both(first: Peer, fromFirst: seq<Report>, second: Peer, fromSecond: seq<Report>, sending: bool, h: Hub): System {
    At(h, On(first, [], fromFirst, 1, false, Low(), true), On(second, [], fromSecond, 1, false, High(), sending))
  }

  lemma FirstLinkReads(cfg: Config, h: Hub, first: Link, second: Link)
    requires ConfigOk(cfg) && first.inbox != []
    ensures
      var t := first.(peer := Apply(first.peer, first.inbox[0]), inbox := first.inbox[1..]);
      && Enabled(cfg, At(h, first, second), ReadMessage(0))
      && Step(cfg, At(h, first, second), ReadMessage(0)) == At(h, t, second)
  {
    hide Apply;
    var t := first.(peer := Apply(first.peer, first.inbox[0]), inbox := first.inbox[1..]);
    assert Step(cfg, At(h, first, second), ReadMessage(0)).links == At(h, t, second).links;
  }

  lemma SecondLinkReads(cfg: Config, h: Hub, first: Link, second: Link)
    requires ConfigOk(cfg) && second.inbox != []
    ensures
      var t := second.(peer := Apply(second.peer, second.inbox[0]), inbox := second.inbox[1..]);
      && Enabled(cfg, At(h, first, second), ReadMessage(1))
      && Step(cfg, At(h, first, second), ReadMessage(1)) == At(h, first, t)
  {
    hide Apply;
    var t := second.(peer := Apply(second.peer, second.inbox[0]), inbox := second.inbox[1..]);
    assert Step(cfg, At(h, first, second), ReadMessage(1)).links == At(h, first, t).links;
  }

  lemma BothRead(ratio: real, x: real, memory: View)
    requires Given(ratio, x)
    ensures
      var cfg := Cfg(ratio, x);
      var first := On(Started(2.0, false), [NearState(Low())], [], 1, false, Low(), true);
      var second := New(memory).(inbox := [START_STATE, NearState(High())], share := High());
      var readFirst := On(FirstHanded(), [], [], 1, false, Low(), true);
      var readOnce := On(Started(10.0, true), [NearState(High())], [], 1, false, High(), false);
      var s, t, u := At(NEAR_HUB, first, second), At(NEAR_HUB, readFirst, second), At(NEAR_HUB, readFirst, readOnce);
      && ConfigOk(cfg) && Enabled(cfg, s, ReadMessage(0)) && Step(cfg, s, ReadMessage(0)) == t
      && Enabled(cfg, t, ReadMessage(1)) && Step(cfg, t, ReadMessage(1)) == u
      && Enabled(cfg, u, ReadMessage(1))
      && Step(cfg, u, ReadMessage(1))
         == Both(FirstHanded(), [], SecondHanded(), [], false, NEAR_HUB)
  {
    ReadIs(Started(2.0, false), 2, NEAR, 2.0, Low());
    ReadIs(New(memory).peer, 1, START, 10.0, {});
    ReadIs(Started(10.0, true), 2, NEAR, 2.0, High());
    assert [NearState(Low())][1..] == [] && [NearState(High())][1..] == [];
    assert [START_STATE, NearState(High())][1..] == [NearState(High())];
    hide Apply, Step, Enabled;
    var cfg := Cfg(ratio, x);
    var first := On(Started(2.0, false), [NearState(Low())], [], 1, false, Low(), true);
    var second := New(memory).(inbox := [START_STATE, NearState(High())], share := High());
    var readFirst := On(FirstHanded(), [], [], 1, false, Low(), true);
    FirstLinkReads(cfg, NEAR_HUB, first, second);
    SecondLinkReads(cfg, NEAR_HUB, readFirst, second);
    SecondLinkReads(cfg, NEAR_HUB, readFirst, On(Started(10.0, true), [NearState(High())], [], 1, false, High(), false));
  }


  // ----- The units -----

  /** What evaluating a unit gives. */
  lemma Evaluates(ratio: real, x: real, p: Peer, c: nat)
    requires Given(ratio, x) && p.key == 2 && p.view == Sees(NEAR) && c in p.work && c < 7 && c != 6
    ensures
      var cfg, better := Cfg(ratio, x), Objective(x, [c]) < Aim(ratio, p.value);
      && ConfigOk(cfg) && CanProcess(p, c) && Stands(p, c) == (FRAME, [c]) && Improves(cfg, p, c) == better
      && Processed(cfg, p, c) == p.(value := if better then Objective(x, [c]) else p.value, work := p.work - {c},
                                    unreported := p.unreported + {c})
  {
    WhereIs(6, c);
    hide Where, Span, Aim;
  }

  lemma Replaced(first: Link, second: Link, l: Link)
    ensures map[0 := first, 1 := second][0 := l] == map[0 := l, 1 := second]
    ensures map[0 := first, 1 := second][1 := l] == map[0 := first, 1 := l]
  {
    var m: map<nat, Link> := map[0 := first, 1 := second];
    assert m[0 := l] == map[0 := l, 1 := second] && m[1 := l] == map[0 := first, 1 := l];
  }

  /** Evaluating a unit, by either peer. */
  lemma EvaluateStep(cfg: Config, h: Hub, first: Link, second: Link, i: nat, c: nat, l: Link, h': Hub)
    requires i < 2 && ConfigOk(cfg)
    requires
      var was := if i == 0 then first else second;
      && CanProcess(was.peer, c) && was.peer.going && IsNext(was.peer.work, c) && Process(cfg, was, c) == l
      && was.peer.view.centre != Stands(was.peer, c).1
      && h' == h.(evaluated := h.evaluated + {(was.peer.view.frame, Stands(was.peer, c).1)},
                  lost := h.lost + LostNow(cfg, h, was, c), overlooked := h.overlooked + OverlookedNow(cfg, h, was, c))
    ensures
      var s := At(h, first, second);
      Enabled(cfg, s, Evaluate(i, c)) && Step(cfg, s, Evaluate(i, c)) == if i == 0 then At(h', l, second) else At(h', first, l)
  {
    hide CanProcess, Process, LostNow, OverlookedNow, Stands, IsNext;
    Replaced(first, second, l);
  }

  lemma NothingRecorded(cfg: Config, h: Hub, l: Link, c: nat)
    requires ConfigOk(cfg) && CanProcess(l.peer, c) && !GaggedAfter(cfg, l, c) && !Overwrites(cfg, l, c)
    ensures LostNow(cfg, h, l, c) == {} && OverlookedNow(cfg, h, l, c) == {}
  {
    hide CanProcess, Overwrites, GaggedAfter;
  }

  lemma SeenMore(h: Hub, seen: Seen)
    ensures h.(evaluated := h.evaluated + seen, lost := h.lost + {}, overlooked := h.overlooked + {})
         == h.(evaluated := h.evaluated + seen)
  {
    assert h.lost + {} == h.lost && h.overlooked + {} == h.overlooked;
  }

  /** A unit that is no find, and not the last one, is kept to be reported. */
  lemma QuietStep(ratio: real, x: real, h: Hub, first: Link, second: Link, i: nat, c: nat, p: Peer)
    requires i < 2 && Given(ratio, x)
    requires
      var l := if i == 0 then first else second;
      && l.peer == p && p.key == 2 && p.view == Sees(NEAR) && p.going && !p.due && p.draft == None && !p.gagged
      && IsNext(p.work, c) && p.work != {c} && c < 7 && c != 6 && !(Objective(x, [c]) < Aim(ratio, p.value))
    ensures
      var cfg, s, h' := Cfg(ratio, x), At(h, first, second), h.(evaluated := h.evaluated + {(FRAME, [c])});
      var q := p.(work := p.work - {c}, unreported := p.unreported + {c});
      && ConfigOk(cfg) && Enabled(cfg, s, Evaluate(i, c))
      && Step(cfg, s, Evaluate(i, c))
         == if i == 0 then At(h', first.(peer := q), second) else At(h', first, second.(peer := q))
  {
    hide Given, Aim, Cfg, ConfigOk, CanProcess, Stands, LostNow, OverlookedNow, Processed, Improves;
    GivenFacts(ratio, x);
    Evaluates(ratio, x, p, c);
    var cfg, l := Cfg(ratio, x), if i == 0 then first else second;
    assert p.work - {c} != {};
    assert Process(cfg, l, c) == l.(peer := p.(work := p.work - {c}, unreported := p.unreported + {c}));
    NothingRecorded(cfg, h, l, c);
    SeenMore(h, {(FRAME, [c])});
    hide Process, IsNext;
    EvaluateStep(cfg, h, first, second, i, c, l.(peer := p.(work := p.work - {c}, unreported := p.unreported + {c})),
                 h.(evaluated := h.evaluated + {(FRAME, [c])}));
  }

  function SeenFirst(): Seen { SEEN + {(FRAME, [2])} }

  function SeenFind(): Seen { SeenFirst() + {(FRAME, [1])} }

  function SeenLast(): Seen { SeenFind() + {(FRAME, [0])} }

  function SeenFive(): Seen { SeenLast() + {(FRAME, [5])} }

  function SeenFour(): Seen { SeenFive() + {(FRAME, [4])} }

  function SeenAll(): Seen { SeenFour() + {(FRAME, [3])} }

  function HubSeen(seen: Seen): Hub { HubNear(Near({}, 2.0, None), seen, {}, {}) }

  function HubLost(search: State, seen: Seen): Hub { HubNear(search, seen, {LOSS}, {[0], [1], [2]}) }

  /** Links of the two peers while they work. */
  function Front(p: Peer, outbox: seq<Report>): Link { On(p, [], outbox, 1, false, Low(), true) }

  function Back(p: Peer, outbox: seq<Report>, sending: bool): Link { On(p, [], outbox, 1, false, High(), sending) }

  function After2(due: bool): Peer { AtNear(2.0, {0, 1}, {2}, None, due, true, false) }

  function After1(): Peer { AtNear(1.0, {0}, {1, 2}, Some(FoundReport()), false, true, false) }

  function After0(): Peer { AtNear(1.0, {}, Low(), Some(LastReport()), false, false, true) }

  function After5(): Peer { AtNear(2.0, {3, 4}, {5}, None, false, true, false) }

  function After4(): Peer { AtNear(2.0, {3}, {4, 5}, None, false, true, false) }

  lemma NoFind(ratio: real, x: real, c: nat)
    requires Given(ratio, x) && (c == 2 || c == 4 || c == 5)
    ensures !(Objective(x, [c]) < Aim(ratio, 2.0))
  {
    AimFacts(ratio, 2.0, 2.0);
  }

  /** Unit 2 is no find; but it is to be reported after the next one. */
  lemma UnitTwo(ratio: real, x: real, second: Link)
    requires Given(ratio, x)
    ensures
      var cfg, s, t := Cfg(ratio, x), At(HubSeen(SEEN), Front(FirstHanded(), []), second),
                       At(HubSeen(SeenFirst()), Front(After2(false), []), second);
      && ConfigOk(cfg) && Enabled(cfg, s, Evaluate(0, 2)) && Step(cfg, s, Evaluate(0, 2)) == t
      && Enabled(cfg, t, ReportDue(0)) && Step(cfg, t, ReportDue(0)) == At(HubSeen(SeenFirst()), Front(After2(true), []), second)
  {
    hide Given, Aim, Cfg, ConfigOk, FoundReport, LastReport, OtherReport;
    GivenFacts(ratio, x);
    NoFind(ratio, x, 2);
    var p := FirstHanded();
    assert p.work - {2} == {0, 1} && p.unreported + {2} == {2} && p.work != {2};
    QuietStep(ratio, x, HubSeen(SEEN), Front(p, []), second, 0, 2, p);
    Replaced(Front(After2(false), []), second, Front(After2(true), []));
  }

  lemma UnitOneProcessed(ratio: real, x: real)
    requires Given(ratio, x)
    ensures
      var cfg, l := Cfg(ratio, x), Front(After2(true), []);
      && ConfigOk(cfg) && CanProcess(l.peer, 1) && Stands(l.peer, 1) == (FRAME, [1])
      && !Overwrites(cfg, l, 1) && !GaggedAfter(cfg, l, 1) && Process(cfg, l, 1) == Front(After1(), [])
  {
    hide Given, Aim, CanProcess, Stands, Improves, Processed, ConfigOk, Cfg;
    CfgIs(ratio, x);
    GivenFacts(ratio, x);
    Evaluates(ratio, x, After2(true), 1);
    assert {0, 1} - {1} == {0} && {2} + {1} == {1, 2};
  }

  lemma CfgIs(ratio: real, x: real)
    ensures Cfg(ratio, x).ratio == ratio && Cfg(ratio, x).size == 7
    ensures Objective(x, [1]) == 1.0 && Objective(x, [3]) == 1.05 && Objective(x, [0]) == x
  {
  }

  /** Unit 1 is a find, but a write is under way: it waits. */
  lemma UnitOne(ratio: real, x: real, second: Link)
    requires Given(ratio, x)
    ensures
      var cfg, s := Cfg(ratio, x), At(HubSeen(SeenFirst()), Front(After2(true), []), second);
      && ConfigOk(cfg) && Enabled(cfg, s, Evaluate(0, 1))
      && Step(cfg, s, Evaluate(0, 1)) == At(HubSeen(SeenFind()), Front(After1(), []), second)
  {
    hide Given, Aim, Cfg, ConfigOk, CanProcess, Stands, Process, Overwrites, GaggedAfter, LostNow, OverlookedNow,
         FoundReport;
    UnitOneProcessed(ratio, x);
    var cfg, l, h := Cfg(ratio, x), Front(After2(true), []), HubSeen(SeenFirst());
    NothingRecorded(cfg, h, l, 1);
    SeenMore(h, {(FRAME, [1])});
    EvaluateStep(cfg, h, l, second, 0, 1, Front(After1(), []), HubSeen(SeenFind()));
  }

  lemma UnitZeroProcessed(ratio: real, x: real)
    requires Given(ratio, x)
    ensures
      var cfg, l := Cfg(ratio, x), Front(After1(), []);
      && ConfigOk(cfg) && CanProcess(l.peer, 0) && Stands(l.peer, 0) == (FRAME, [0])
      && Overwrites(cfg, l, 0) && GaggedAfter(cfg, l, 0) && Reports(cfg, l.peer, 0) && Process(cfg, l, 0) == Front(After0(), [])
  {
    hide Given, Aim, CanProcess, Stands, Improves, Processed, ConfigOk, Cfg;
    CfgIs(ratio, x);
    GivenFacts(ratio, x);
    Evaluates(ratio, x, After1(), 0);
    assert {0} - {0} == {} && {1, 2} + {0} == Low();
  }

  lemma RecordedIs(cfg: Config, h: Hub, l: Link, c: nat, v: View, units: set<nat>, find: nat, value: real)
    requires ConfigOk(cfg) && CanProcess(l.peer, c) && Handing(h) && l.peer.key == h.key && l.peer.view == v
    requires Reports(cfg, l.peer, c) && GaggedAfter(cfg, l, c) && Overwrites(cfg, l, c)
    requires ViewOk(v) && l.peer.unreported + {c} == units && Covers(v, units)
    requires l.peer.draft.value.find == Some(find) && l.peer.draft.value.value == value
    ensures LostNow(cfg, h, l, c) == {Loss(v.centre, find, value)}
    ensures OverlookedNow(cfg, h, l, c) == PointsOf(v, units)
  {
    hide CanProcess, GaggedAfter, Reports, PointsOf, Covers, ViewOk;
  }

  lemma PointsAre()
    ensures ViewOk(Sees(NEAR)) && Covers(Sees(NEAR), Low()) && PointsOf(Sees(NEAR), Low()) == {[0], [1], [2]}
  {
    hide Where, Span, ViewOk;
    WhereIs(6, 0);
    WhereIs(6, 1);
    WhereIs(6, 2);
    var v, r := Sees(NEAR), PointsOf(Sees(NEAR), Low());
    hide Sees;
    forall p | p in r ensures p == [0] || p == [1] || p == [2] {
      var c :| c in Low() && Where(v, c) == p;
    }
  }

  lemma WaitingIs()
    ensures Handing(HubSeen(SeenFind())) && HubSeen(SeenFind()).key == 2
    ensures var p := After1(); p.key == 2 && p.view == Sees(NEAR) && p.unreported + {0} == Low() && p.draft == Some(FoundReport())
    ensures FoundReport().value == 1.0 && FoundReport().find == Some(1)
    ensures Loss(Sees(NEAR).centre, 1, 1.0) == LOSS
  {
    assert {1, 2} + {0} == Low();
  }

  /** The find is recorded as lost, and the three units as overlooked. */
  lemma UnitZeroRecorded(ratio: real, x: real)
    requires Given(ratio, x)
    ensures
      var cfg, h, l := Cfg(ratio, x), HubSeen(SeenFind()), Front(After1(), []);
      && ConfigOk(cfg) && CanProcess(l.peer, 0)
      && LostNow(cfg, h, l, 0) == {LOSS} && OverlookedNow(cfg, h, l, 0) == {[0], [1], [2]}
  {
    hide Given, Aim, Cfg, ConfigOk, CanProcess, Overwrites, GaggedAfter, Process, Stands, Reports, ViewOk, Covers,
         PointsOf, LostNow, OverlookedNow, HubSeen, Sees, Handing, After1, FoundReport, Low, SeenFind;
    UnitZeroProcessed(ratio, x);
    PointsAre();
    WaitingIs();
    RecordedIs(Cfg(ratio, x), HubSeen(SeenFind()), Front(After1(), []), 0, Sees(NEAR), Low(), 1, 1.0);
  }

  /** Unit 0 is the last one, so it is reported: the find is written over. */
  lemma UnitZero(ratio: real, x: real, second: Link)
    requires Given(ratio, x)
    ensures
      var cfg, s := Cfg(ratio, x), At(HubSeen(SeenFind()), Front(After1(), []), second);
      && ConfigOk(cfg) && Enabled(cfg, s, Evaluate(0, 0))
      && Step(cfg, s, Evaluate(0, 0)) == At(HubLost(Near({}, 2.0, None), SeenLast()), Front(After0(), []), second)
  {
    hide Given, Aim, Cfg, ConfigOk, CanProcess, Process, Overwrites, LostNow, OverlookedNow, Stands, Reports, GaggedAfter,
         FoundReport, LastReport, SeenFind;
    UnitZeroProcessed(ratio, x);
    UnitZeroRecorded(ratio, x);
    assert {} + {LOSS} == {LOSS} && {} + {[0], [1], [2]} == {[0], [1], [2]};
    EvaluateStep(Cfg(ratio, x), HubSeen(SeenFind()), Front(After1(), []), second, 0, 0, Front(After0(), []),
                 HubLost(Near({}, 2.0, None), SeenLast()));
  }

  lemma Sends(ratio: real, x: real, second: Link)
    requires Given(ratio, x)
    ensures
      var cfg, h := Cfg(ratio, x), HubLost(Near({}, 2.0, None), SeenLast());
      var s := At(h, Front(After0(), []), second);
      && ConfigOk(cfg) && Enabled(cfg, s, SendDone(0))
      && Step(cfg, s, SendDone(0)) == At(h, Front(FirstDone(), [LastReport()]), second)
  {
    hide Given, Aim, Cfg, ConfigOk, LastReport, HubLost, Low;
    GivenFacts(ratio, x);
    assert [] + [LastReport()] == [LastReport()];
    Replaced(Front(After0(), []), second, Front(FirstDone(), [LastReport()]));
  }

  /** The other peer's units: its find is the last one and goes out at once. */
  lemma OtherUnits(ratio: real, x: real, first: Link)
    requires Given(ratio, x)
    ensures
      var cfg := Cfg(ratio, x);
      var h0, h1, h2 := HubLost(Near({}, 2.0, None), SeenLast()), HubLost(Near({}, 2.0, None), SeenFive()),
                        HubLost(Near({}, 2.0, None), SeenFour());
      var s, t, u := At(h0, first, Back(SecondHanded(), [], false)), At(h1, first, Back(After5(), [], false)),
                     At(h2, first, Back(After4(), [], false));
      && ConfigOk(cfg) && Enabled(cfg, s, Evaluate(1, 5)) && Step(cfg, s, Evaluate(1, 5)) == t
      && Enabled(cfg, t, Evaluate(1, 4)) && Step(cfg, t, Evaluate(1, 4)) == u
  {
    hide Given, Aim, Cfg, ConfigOk, OtherReport, LastReport, Enabled, Step, SeenLast;
    GivenFacts(ratio, x);
    NoFind(ratio, x, 5);
    NoFind(ratio, x, 4);
    var p, q := SecondHanded(), After5();
    assert p.work - {5} == {3, 4} && p.unreported + {5} == {5} && p.work != {5} && IsNext(p.work, 5);
    assert q.work - {4} == {3} && q.unreported + {4} == {4, 5} && q.work != {4} && IsNext(q.work, 4);
    QuietStep(ratio, x, HubLost(Near({}, 2.0, None), SeenLast()), first, Back(p, [], false), 1, 5, p);
    QuietStep(ratio, x, HubLost(Near({}, 2.0, None), SeenFive()), first, Back(q, [], false), 1, 4, q);
  }

  lemma UnitThreeProcessed(ratio: real, x: real)
    requires Given(ratio, x)
    ensures
      var cfg, l := Cfg(ratio, x), Back(After4(), [], false);
      && ConfigOk(cfg) && CanProcess(l.peer, 3) && Stands(l.peer, 3) == (FRAME, [3])
      && !Overwrites(cfg, l, 3) && !GaggedAfter(cfg, l, 3) && Process(cfg, l, 3) == Back(SecondDone(), [OtherReport()], true)
  {
    hide Given, Aim, CanProcess, Stands, Improves, Processed, ConfigOk, Cfg;
    CfgIs(ratio, x);
    GivenFacts(ratio, x);
    Evaluates(ratio, x, After4(), 3);
    assert {3} - {3} == {} && {4, 5} + {3} == High() && [] + [OtherReport()] == [OtherReport()];
  }

  lemma UnitThree(ratio: real, x: real, first: Link)
    requires Given(ratio, x)
    ensures
      var cfg, s := Cfg(ratio, x), At(HubLost(Near({}, 2.0, None), SeenFour()), first, Back(After4(), [], false));
      && ConfigOk(cfg) && Enabled(cfg, s, Evaluate(1, 3))
      && Step(cfg, s, Evaluate(1, 3))
         == At(HubLost(Near({}, 2.0, None), SeenAll()), first, Back(SecondDone(), [OtherReport()], true))
  {
    hide Given, Aim, Cfg, ConfigOk, CanProcess, Stands, Process, Overwrites, GaggedAfter, LostNow, OverlookedNow,
         OtherReport, SeenFour;
    UnitThreeProcessed(ratio, x);
    var cfg, l, h := Cfg(ratio, x), Back(After4(), [], false), HubLost(Near({}, 2.0, None), SeenFour());
    NothingRecorded(cfg, h, l, 3);
    SeenMore(h, {(FRAME, [3])});
    EvaluateStep(cfg, h, first, l, 1, 3, Back(SecondDone(), [OtherReport()], true), HubLost(Near({}, 2.0, None), SeenAll()));
  }
  // ----- The server -----

  /** Both peers, with what the server has of them. */
  function Heard(first: seq<Report>, echo0: nat, share0: set<nat>, second: seq<Report>, echo1: nat, share1: set<nat>, h: Hub)
    : System
  {
    At(h, On(FirstDone(), [], first, echo0, false, share0, true),
       On(SecondDone(), [], second, echo1, false, share1, true))
  }

  lemma ReportStep(cfg: Config, h: Hub, first: Link, second: Link, i: nat, r: Report, deal: map<nat, set<nat>>)
    requires i < 2 && ConfigOk(cfg) && h.phase.Idle? && r.Done? && r.key == h.key && 0 in deal && 1 in deal
    requires var was := if i == 0 then first else second; was.outbox == [r] && r.units != {} && was.share - r.units == {}
    ensures
      var s, was := At(h, first, second), if i == 0 then first else second;
      var h', l := h.(search := OnPeerReport(h.search, r.value, r.find, r.units, true)),
                   was.(outbox := [], echo := r.key, share := was.share - r.units);
      && Enabled(cfg, s, Event.Report(i, deal))
      && Step(cfg, s, Event.Report(i, deal)) == if i == 0 then At(h', l, second) else At(h', first, l)
  {
    hide OnPeerReport, Stale;
    assert [r][1..] == [];
    var was := if i == 0 then first else second;
    Replaced(first, second, was.(outbox := [], echo := r.key, share := was.share - r.units));
  }

  const ANY: map<nat, set<nat>> := map[0 := {}, 1 := {}]

  lemma BothReport(cfg: Config)
    requires ConfigOk(cfg)
    ensures
      var s := Heard([LastReport()], 1, Low(), [OtherReport()], 1, High(), HubLost(Near({}, 2.0, None), SeenAll()));
      var t := Heard([], 2, {}, [OtherReport()], 1, High(), HubLost(Near(Low(), 2.0, None), SeenAll()));
      var u := Heard([], 2, {}, [], 2, {}, HubLost(Near(Units(), 1.05, Some(3)), SeenAll()));
      && Enabled(cfg, s, Event.Report(0, ANY)) && Step(cfg, s, Event.Report(0, ANY)) == t
      && Enabled(cfg, t, Event.Report(1, ANY)) && Step(cfg, t, Event.Report(1, ANY)) == u
  {
    hide ConfigOk, Enabled, Step;
    Dealing();
    assert OnPeerReport(Near({}, 2.0, None), 1.0, None, Low(), true) == Near(Low(), 2.0, None);
    assert OnPeerReport(Near(Low(), 2.0, None), 1.05, Some(3), High(), true) == Near(Units(), 1.05, Some(3));
    hide OnPeerReport, Low, High, Units;
    var first, second := Front(FirstDone(), [LastReport()]), Back(SecondDone(), [OtherReport()], true);
    ReportStep(cfg, HubLost(Near({}, 2.0, None), SeenAll()), first, second, 0, LastReport(), ANY);
    ReportStep(cfg, HubLost(Near(Low(), 2.0, None), SeenAll()), first.(outbox := [], echo := 2, share := {}), second, 1,
               OtherReport(), ANY);
  }

  function Searched(): State { State(GEO, [3], 0, {}, {}, All(), false, 1.05, None, true) }

  function LastHub(): Hub {
    Hub(Searched(), 2, 2, Epoch(FRAME, [3], false), 2.0, Recentring([6], 3), 7, SeenAll(), {LOSS}, {[0], [1], [2]})
  }

  lemma AllAbsorbed(idle: bool)
    ensures
      var s, a := Near(Units(), 1.05, Some(3)), State(GEO, [6], 0, {}, {}, All(), false, 1.05, Some(3), true);
      Ok(s) && Ok(a) && Absorb(s, idle) == a
  {
    hide Point, CodeOf, Site, Ok, CentreOk, GeoOk, Total, Inside, SitesOf;
    NearOk(Units(), 1.05, Some(3));
    OkParts(Near(Units(), 1.05, Some(3)));
    SitesAre();
    Dealing();
    assert Absorb(Near(Units(), 1.05, Some(3)), idle) == State(GEO, [6], 0, {}, {}, All(), false, 1.05, Some(3), true);
  }

  lemma SitesAre()
    ensures CentreOk(GEO, [6]) && Inside(GEO, Units()) && {6} + SitesOf(GEO, [6], Units()) == All()
  {
    hide Point, CodeOf, Site, CentreOk, GeoOk, Total;
    TotalIs();
    PointIs(6, 0);
    forall c | c in Units() ensures c < Total(GEO) && Site(GEO, [6], c) == c {
      PointIs(6, c);
    }
    assert Inside(GEO, Units());
    assert forall c :: c in SitesOf(GEO, [6], Units()) <==> c in Units();
  }

  lemma RecentredIs()
    ensures
      var a := State(GEO, [6], 0, {}, {}, All(), false, 1.05, Some(3), true);
      Ok(a) && Recentred(a) == Searched()
  {
    hide Point, CodeOf, Site, Ok, CentreOk, GeoOk, Total, Inside, FirstWork;
    AllAbsorbed(true);
    PointIs(6, 3);
    FirstWorkIs(3, All());
    Dealing();
  }

  /** A sync that absorbs the last of the list takes nothing from the peers. */
  lemma StartLeaves(s: System, idle: bool, a: State)
    requires Ok(s.hub.search) && Absorb(s.hub.search, idle) == a && a.remaining == {} && a.best.Some?
    ensures
      var h, r := s.hub, Recentred(a);
      StartSync(s, idle) == System(h.(search := r, msgEpoch := h.msgEpoch.(centre := r.centre),
                                      phase := Recentring(h.search.centre, a.best.value)), s.links)
  {
    hide Ok, Absorb, Recentred;
    forall i | i in s.links ensures s.links[i].(share := s.links[i].share - {}) == s.links[i] {
      assert s.links[i].share - {} == s.links[i].share;
    }
    assert StartSync(s, idle).links == s.links;
  }

  lemma Starts(cfg: Config)
    requires ConfigOk(cfg)
    ensures
      var s := Heard([], 2, {}, [], 2, {}, HubLost(Near(Units(), 1.05, Some(3)), SeenAll()));
      Enabled(cfg, s, Event.Start) && Step(cfg, s, Event.Start) == Heard([], 2, {}, [], 2, {}, LastHub())
  {
    hide Ok, Absorb, Recentred, ConfigOk, StartSync, SyncEmpties;
    RecentredIs();
    var s := Heard([], 2, {}, [], 2, {}, HubLost(Near(Units(), 1.05, Some(3)), SeenAll()));
    AllAbsorbed(SyncEmpties(s));
    StartLeaves(s, SyncEmpties(s), State(GEO, [6], 0, {}, {}, All(), false, 1.05, Some(3), true));
  }

  // ----- The run -----

  function Joining(memory: View): seq<Event> {
    [Join(0, memory, HOST, false), Join(1, memory, HOST, false), ReadMessage(0)]
  }

  const BOOTS: seq<Event> := [TryPoint(0, [6]), Event.Report(0, DEAL), WriteDone(0), WriteDone(1)]
  const READS: seq<Event> := [ReadMessage(0), ReadMessage(1), ReadMessage(1)]
  const FIRST_UNITS: seq<Event> := [Evaluate(0, 2), ReportDue(0), Evaluate(0, 1), Evaluate(0, 0), SendDone(0)]
  const SECOND_UNITS: seq<Event> := [Evaluate(1, 5), Evaluate(1, 4), Evaluate(1, 3)]
  const REPORTS: seq<Event> := [Event.Report(0, ANY), Event.Report(1, ANY), Event.Start]

  function Told(memory: View): System {
    At(HubAtStart(true, {}), On(Started(10.0, true), [], [], 1, false, {}, false), New(memory))
  }

  function Caught(memory: View): System {
    At(NEAR_HUB, On(Started(2.0, false), [NearState(Low())], [], 1, false, Low(), true),
       New(memory).(inbox := [START_STATE, NearState(High())], share := High()))
  }

  function Working(): System { At(HubSeen(SEEN), Front(FirstHanded(), []), Back(SecondHanded(), [], false)) }

  function FirstThrough(): System {
    At(HubLost(Near({}, 2.0, None), SeenLast()), Front(FirstDone(), [LastReport()]), Back(SecondHanded(), [], false))
  }

  function BothThrough(): System {
    Heard([LastReport()], 1, Low(), [OtherReport()], 1, High(), HubLost(Near({}, 2.0, None), SeenAll()))
  }

  function AtShrink(): System { Heard([], 2, {}, [], 2, {}, LastHub()) }

  lemma StartRuns(ratio: real, x: real, memory: View)
    requires Given(ratio, x)
    ensures GeoOk(GEO) && 1 <= GEO.levels && ConfigOk(Cfg(ratio, x))
    ensures Protocol.Runs(Cfg(ratio, x), Protocol.Fresh(Cfg(ratio, x), GEO), Joining(memory), Told(memory))
  {
    hide Given, Cfg, Aim, Enabled, Step, Protocol.Runs, Protocol.Fresh, GeoOk, ConfigOk;
    FreshIs(ratio, x);
    GivenFacts(ratio, x);
    Joins(ratio, x, memory);
    FirstReads(Cfg(ratio, x), HubAtStart(true, {}), memory);
    var cfg, s0, s3 := Cfg(ratio, x), Protocol.Fresh(Cfg(ratio, x), GEO), Told(memory);
    var s1, s2 := System(HubAtStart(true, {}), map[0 := New(memory)]), At(HubAtStart(true, {}), New(memory), New(memory));
    RunsOne(cfg, s2, ReadMessage(0), s3);
    AlsoRuns(cfg, s1, Join(1, memory, HOST, false), s2, [ReadMessage(0)], s3);
    AlsoRuns(cfg, s0, Join(0, memory, HOST, false), s1, [Join(1, memory, HOST, false)] + [ReadMessage(0)], s3);
    assert [Join(0, memory, HOST, false)] + ([Join(1, memory, HOST, false)] + [ReadMessage(0)]) == Joining(memory);
  }

  lemma FirstRuns(ratio: real, x: real, memory: View)
    requires Given(ratio, x)
    ensures ConfigOk(Cfg(ratio, x)) && Protocol.Runs(Cfg(ratio, x), Told(memory), BOOTS, Caught(memory))
  {
    hide Given, Cfg, Aim, Enabled, Step, Protocol.Runs, ConfigOk;
    GivenFacts(ratio, x);
    Tries(ratio, x, New(memory));
    Boots(ratio, x, memory);
    CatchesUp(ratio, x, memory);
    var cfg, s0, s4 := Cfg(ratio, x), Told(memory), Caught(memory);
    var late := New(memory).(late := true, share := High());
    var s1 := At(HubAtStart(true, SEEN), On(Started(2.0, false), [], [REPORTED], 1, false, {}, true), New(memory));
    var s2 := At(NEAR_HUB, On(Started(2.0, false), [], [], 1, true, Low(), true), late);
    var s3 := At(NEAR_HUB, On(Started(2.0, false), [NearState(Low())], [], 1, false, Low(), true), late);
    RunsOne(cfg, s3, WriteDone(1), s4);
    AlsoRuns(cfg, s2, WriteDone(0), s3, [WriteDone(1)], s4);
    AlsoRuns(cfg, s1, Event.Report(0, DEAL), s2, [WriteDone(0)] + [WriteDone(1)], s4);
    AlsoRuns(cfg, s0, TryPoint(0, [6]), s1, [Event.Report(0, DEAL)] + ([WriteDone(0)] + [WriteDone(1)]), s4);
    assert [TryPoint(0, [6])] + ([Event.Report(0, DEAL)] + ([WriteDone(0)] + [WriteDone(1)])) == BOOTS;
  }

  lemma ReadRuns(ratio: real, x: real, memory: View)
    requires Given(ratio, x)
    ensures ConfigOk(Cfg(ratio, x)) && Protocol.Runs(Cfg(ratio, x), Caught(memory), READS, Working())
  {
    hide Given, Cfg, Aim, Enabled, Step, Protocol.Runs, ConfigOk;
    GivenFacts(ratio, x);
    BothRead(ratio, x, memory);
    var cfg, s0, s3 := Cfg(ratio, x), Caught(memory), Working();
    var second := New(memory).(inbox := [START_STATE, NearState(High())], share := High());
    var readFirst := On(FirstHanded(), [], [], 1, false, Low(), true);
    var readOnce := On(Started(10.0, true), [NearState(High())], [], 1, false, High(), false);
    var s1, s2 := At(NEAR_HUB, readFirst, second), At(NEAR_HUB, readFirst, readOnce);
    RunsOne(cfg, s2, ReadMessage(1), s3);
    AlsoRuns(cfg, s1, ReadMessage(1), s2, [ReadMessage(1)], s3);
    AlsoRuns(cfg, s0, ReadMessage(0), s1, [ReadMessage(1)] + [ReadMessage(1)], s3);
    assert [ReadMessage(0)] + ([ReadMessage(1)] + [ReadMessage(1)]) == READS;
  }

  lemma FirstPeerRuns(ratio: real, x: real)
    requires Given(ratio, x)
    ensures ConfigOk(Cfg(ratio, x)) && Protocol.Runs(Cfg(ratio, x), Working(), FIRST_UNITS, FirstThrough())
  {
    hide Given, Cfg, Aim, Enabled, Step, Protocol.Runs, ConfigOk;
    GivenFacts(ratio, x);
    var cfg, other := Cfg(ratio, x), Back(SecondHanded(), [], false);
    UnitTwo(ratio, x, other);
    UnitOne(ratio, x, other);
    UnitZero(ratio, x, other);
    Sends(ratio, x, other);
    var s0, s5 := Working(), FirstThrough();
    var s1 := At(HubSeen(SeenFirst()), Front(After2(false), []), other);
    var s2 := At(HubSeen(SeenFirst()), Front(After2(true), []), other);
    var s3, s4 := At(HubSeen(SeenFind()), Front(After1(), []), other),
                  At(HubLost(Near({}, 2.0, None), SeenLast()), Front(After0(), []), other);
    RunsOne(cfg, s4, SendDone(0), s5);
    AlsoRuns(cfg, s3, Evaluate(0, 0), s4, [SendDone(0)], s5);
    AlsoRuns(cfg, s2, Evaluate(0, 1), s3, [Evaluate(0, 0)] + [SendDone(0)], s5);
    AlsoRuns(cfg, s1, ReportDue(0), s2, [Evaluate(0, 1)] + ([Evaluate(0, 0)] + [SendDone(0)]), s5);
    AlsoRuns(cfg, s0, Evaluate(0, 2), s1, [ReportDue(0)] + ([Evaluate(0, 1)] + ([Evaluate(0, 0)] + [SendDone(0)])), s5);
    assert [Evaluate(0, 2)] + ([ReportDue(0)] + ([Evaluate(0, 1)] + ([Evaluate(0, 0)] + [SendDone(0)]))) == FIRST_UNITS;
  }

  lemma OtherPeerRuns(ratio: real, x: real)
    requires Given(ratio, x)
    ensures ConfigOk(Cfg(ratio, x)) && Protocol.Runs(Cfg(ratio, x), FirstThrough(), SECOND_UNITS, BothThrough())
  {
    hide Given, Cfg, Aim, Enabled, Step, Protocol.Runs, ConfigOk;
    GivenFacts(ratio, x);
    var cfg, first := Cfg(ratio, x), Front(FirstDone(), [LastReport()]);
    OtherUnits(ratio, x, first);
    UnitThree(ratio, x, first);
    var s0, s3 := FirstThrough(), BothThrough();
    var s1 := At(HubLost(Near({}, 2.0, None), SeenFive()), first, Back(After5(), [], false));
    var s2 := At(HubLost(Near({}, 2.0, None), SeenFour()), first, Back(After4(), [], false));
    RunsOne(cfg, s2, Evaluate(1, 3), s3);
    AlsoRuns(cfg, s1, Evaluate(1, 4), s2, [Evaluate(1, 3)], s3);
    AlsoRuns(cfg, s0, Evaluate(1, 5), s1, [Evaluate(1, 4)] + [Evaluate(1, 3)], s3);
    assert [Evaluate(1, 5)] + ([Evaluate(1, 4)] + [Evaluate(1, 3)]) == SECOND_UNITS;
  }

  lemma ReportRuns(cfg: Config)
    requires ConfigOk(cfg)
    ensures Protocol.Runs(cfg, BothThrough(), REPORTS, AtShrink())
  {
    hide Enabled, Step, Protocol.Runs, ConfigOk;
    BothReport(cfg);
    Starts(cfg);
    var s0, s3 := BothThrough(), AtShrink();
    var s1 := Heard([], 2, {}, [OtherReport()], 1, High(), HubLost(Near(Low(), 2.0, None), SeenAll()));
    var s2 := Heard([], 2, {}, [], 2, {}, HubLost(Near(Units(), 1.05, Some(3)), SeenAll()));
    RunsOne(cfg, s2, Event.Start, s3);
    AlsoRuns(cfg, s1, Event.Report(1, ANY), s2, [Event.Start], s3);
    AlsoRuns(cfg, s0, Event.Report(0, ANY), s1, [Event.Report(1, ANY)] + [Event.Start], s3);
    assert [Event.Report(0, ANY)] + ([Event.Report(1, ANY)] + [Event.Start]) == REPORTS;
  }

  lemma WholeRun(ratio: real, x: real) returns (events: seq<Event>)
    requires Given(ratio, x)
    ensures RunsFrom(Cfg(ratio, x), GEO, events, AtShrink())
  {
    hide Given, Aim, Enabled, Step, Protocol.Runs, Protocol.Fresh, GeoOk, ConfigOk, Makeable, Made, Cfg, AtShrink,
         BothThrough, FirstThrough, Working, Caught, Told, Joining;
    var cfg, memory := Cfg(ratio, x), Sees(START);
    GivenFacts(ratio, x);
    CfgIs(ratio, x);
    LevelIs();
    StartRuns(ratio, x, memory);
    FirstRuns(ratio, x, memory);
    ReadRuns(ratio, x, memory);
    FirstPeerRuns(ratio, x);
    OtherPeerRuns(ratio, x);
    ReportRuns(cfg);
    RunsOn(cfg, FirstThrough(), SECOND_UNITS, BothThrough(), REPORTS, AtShrink());
    RunsOn(cfg, Working(), FIRST_UNITS, FirstThrough(), SECOND_UNITS + REPORTS, AtShrink());
    RunsOn(cfg, Caught(memory), READS, Working(), FIRST_UNITS + (SECOND_UNITS + REPORTS), AtShrink());
    RunsOn(cfg, Told(memory), BOOTS, Caught(memory), READS + (FIRST_UNITS + (SECOND_UNITS + REPORTS)), AtShrink());
    events := Joining(memory) + (BOOTS + (READS + (FIRST_UNITS + (SECOND_UNITS + REPORTS))));
    RunsOn(cfg, Protocol.Fresh(cfg, GEO), Joining(memory), Told(memory), BOOTS + (READS + (FIRST_UNITS + (SECOND_UNITS + REPORTS))),
           AtShrink());
    assert !GEO.ended[0];
  }

  lemma PastTheEnd()
    ensures Shrinking(LastHub()) && Ok(Searched())
  {
    TotalIs();
    PointIs(3, 0);
  }

  lemma SearchedExhausted(ratio: real, x: real)
    requires Given(ratio, x)
    ensures ConfigOk(Cfg(ratio, x)) && CentreOk(GEO, [3]) && Searched().geo == GEO && Searched().centre == [3]
    ensures Exhausted(Cfg(ratio, x), Searched()) <==> Aim(ratio, 1.05) <= 1.0 && Aim(ratio, 1.05) <= x
  {
    hide Given, Aim, Point, Total, ConfigOk, CentreOk, GeoOk;
    GivenFacts(ratio, x);
    TotalIs();
    PointIs(3, 0);
    PointIs(3, 1);
    var cfg, s := Cfg(ratio, x), Searched();
    RatioIs(ratio, x);
    AimFacts(ratio, 1.05, 1.05);
    if Aim(ratio, 1.05) <= 1.0 && Aim(ratio, 1.05) <= x {
      forall c: nat | c < Total(GEO) ensures Aim(ratio, 1.05) <= cfg.f(FRAME, Point(GEO, [3], c)) {
        PointIs(3, c);
      }
    } else {
      assert cfg.f(FRAME, Point(GEO, [3], 0)) == x && cfg.f(FRAME, Point(GEO, [3], 1)) == 1.0;
    }
  }

  lemma RatioIs(ratio: real, x: real)
    requires Given(ratio, x)
    ensures ratio >= 1.0
  {
  }

  /** For every ratio and value of the passed-over unit for which the run is possible: one find, of value 1.0, is lost, the
      server comes to shrink with the value 1.05, and whether the neighbourhood is exhausted hangs on that unit as well. */
  lemma LossAndUnit(ratio: real, x: real) returns (events: seq<Event>, s: System)
    requires Given(ratio, x)
    ensures RunsFrom(Cfg(ratio, x), GEO, events, s) && Shrinking(s.hub) && CentreOk(s.hub.search.geo, s.hub.search.centre)
    ensures s.hub.lost == {LOSS} && s.hub.search.value == 1.05 && ConfigOk(Cfg(ratio, x))
    ensures Exhausted(Cfg(ratio, x), s.hub.search) <==> Aim(ratio, 1.05) <= 1.0 && Aim(ratio, 1.05) <= x
  {
    hide Given, Aim, RunsFrom, Shrinking, Point, Total, ConfigOk, Ok, CentreOk, Exhausted, Cfg;
    events := WholeRun(ratio, x);
    s := AtShrink();
    PastTheEnd();
    SearchedExhausted(ratio, x);
  }

  /** Local optimality is false of some runs: even if any improvement counts, the server comes to shrink next to a better
      point. */
  lemma FindLost() returns (cfg: Config, events: seq<Event>, s: System)
    ensures RunsFrom(cfg, GEO, events, s) && Shrinking(s.hub) && cfg.ratio == 1.0
    ensures ConfigOk(cfg) && CentreOk(s.hub.search.geo, s.hub.search.centre) && !Exhausted(cfg, s.hub.search)
  {
    hide RunsFrom, Shrinking, Exhausted, CentreOk;
    cfg := Cfg(1.0, 3.0);
    events, s := LossAndUnit(1.0, 3.0);
  }

  /** For a ratio above one the lost finds alone do not decide: the server has come to 1.05, which is above the lost 1.0, but its
      target is not; the same run ends with the neighbourhood exhausted or not, as the unit has the value 3.0 or 0.85. */
  lemma HalvesDiffer() returns (cfg: Config, cfg': Config, events: seq<Event>, events': seq<Event>, s: System, s': System)
    ensures RunsFrom(cfg, GEO, events, s) && Shrinking(s.hub) && RunsFrom(cfg', GEO, events', s') && Shrinking(s'.hub)
    ensures ConfigOk(cfg) && CentreOk(s.hub.search.geo, s.hub.search.centre) && Exhausted(cfg, s.hub.search)
    ensures ConfigOk(cfg') && CentreOk(s'.hub.search.geo, s'.hub.search.centre) && !Exhausted(cfg', s'.hub.search)
    ensures s.hub.lost == s'.hub.lost == {LOSS} && s.hub.search.value == s'.hub.search.value && cfg.ratio == cfg'.ratio == 1.2
    ensures Aim(1.2, s.hub.search.value) <= LOSS.value < s.hub.search.value
  {
    hide RunsFrom, Shrinking, Exhausted, CentreOk;
    AimsAre();
    cfg, cfg' := Cfg(1.2, 3.0), Cfg(1.2, 0.85);
    events, s := LossAndUnit(1.2, 3.0);
    events', s' := LossAndUnit(1.2, 0.85);
  }

  lemma AimsAre()
    ensures Aim(1.2, 2.0) > 1.05 && Aim(1.2, 1.0) <= 0.85 < Aim(1.2, 1.05) <= 1.0
  {
  }
}
