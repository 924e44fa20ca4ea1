/** What a peer makes of a whole state: the frame and the centre come with it, the table the peer builds itself, for as many
    coefficients at once as its first coefficient has resolutions. */
module Views {
  import opened Combos
  import opened Coefficients
  import opened Positions
  import opened Tables
  import opened Sites

  /** What a whole state says of where the search stands. */
  datatype Epoch = Epoch(frame: Frame, centre: seq<nat>, boot: bool)

  /** What a peer computes with: `seen` are the lists as its build finds them. */
  datatype View = View(frame: Frame, seen: Grid, levels: nat, centre: seq<nat>, boot: bool)

  /** A peer's machine: the limit on complexities it was told with the task, and what a build finds where it reads past the
      end of a list of resolutions. That is anything: it may differ from peer to peer, key to key and place to place. */
  datatype Host = Host(size: nat, beyond: (nat, nat, nat) -> nat)

  /** The lists with what lies past their ends, up to `n` entries. */
  function Spilled(grid: Grid, n: nat, key: nat, beyond: (nat, nat, nat) -> nat): (r: Grid)
    ensures Longer(grid, r) && GridOk(r, n)
  {
    var r := seq(|grid|, c requires 0 <= c < |grid| =>
      if |grid[c]| < n then grid[c] + seq(n - |grid[c]|, i requires 0 <= i => beyond(key, c, |grid[c]| + i)) else grid[c]);
    assert forall c :: 0 <= c < |grid| ==> grid[c] <= r[c];
    r
  }

  ghost predicate Buildable(frame: Frame) {
    frame.grid != [] && 1 <= |frame.grid[0]| <= |frame.grid| && |frame.ended| == |frame.box| == |frame.grid|
  }

  /** The lists as the build finds them: nothing past their ends matters unless it is read. */
  ghost function ListsFound(host: Host, key: nat, frame: Frame): (r: Grid)
    requires Buildable(frame)
    ensures Longer(frame.grid, r)
  {
    if Built(frame.grid, host.size, |frame.grid[0]|, 0).1 then Spilled(frame.grid, |frame.grid[0]|, key, host.beyond)
    else frame.grid
  }

  ghost function ViewOf(host: Host, key: nat, e: Epoch): View {
    if Buildable(e.frame) then
      var seen := ListsFound(host, key, e.frame);
      View(e.frame, seen, Built(seen, host.size, |e.frame.grid[0]|, 0).0, e.centre, e.boot)
    else View(e.frame, e.frame.grid, 0, e.centre, e.boot)
  }

  /** A build over the spilled lists lays out the very table over the lists as it finds them. */
  lemma FoundTable(host: Host, key: nat, e: Epoch)
    requires Buildable(e.frame)
    ensures
      var n, v := |e.frame.grid[0]|, ViewOf(host, key, e);
      var lists := Spilled(e.frame.grid, n, key, host.beyond);
      && Built(lists, host.size, n, 0) == (v.levels, false) && GridOk(lists, v.levels) && GridOk(v.seen, v.levels)
      && Table(lists, v.levels) == Table(v.seen, v.levels) && Metadata(lists, v.levels) == Metadata(v.seen, v.levels)
  {
    hide Built, Table, Metadata, Spilled;
    var n, v := |e.frame.grid[0]|, ViewOf(host, key, e);
    var lists := Spilled(e.frame.grid, n, key, host.beyond);
    EndStart(lists);
    BuiltIsFitting(lists, host.size, n, 0);
    if !Built(e.frame.grid, host.size, n, 0).1 {
      SameBuilt(e.frame.grid, lists, host.size, n, 0);
      SameTable(e.frame.grid, lists, v.levels);
    }
  }

  /** Where the centre is matters to nothing else. */
  lemma ViewMoved(host: Host, key: nat, frame: Frame, from: seq<nat>, to: seq<nat>, boot: bool)
    ensures ViewOf(host, key, Epoch(frame, to, boot)) == ViewOf(host, key, Epoch(frame, from, boot)).(centre := to)
  {
  }

  function EpochOf(v: View): Epoch { Epoch(v.frame, v.centre, v.boot) }

  ghost predicate ViewOk(v: View) {
    && |v.seen| == |v.frame.ended| == |v.frame.box| == |v.frame.grid| == |v.centre| && GridOk(v.seen, v.levels)
    && forall c :: 0 <= c < |v.frame.grid| ==> v.frame.grid[c] != []
  }

  /** How many complexities the peer's table has. */
  ghost function Span(v: View): nat
    requires ViewOk(v)
  {
    End(v.seen, v.levels)
  }

  /** The grid point complexity `c` stands for, by the peer's own table. */
  ghost function Where(v: View, c: nat): (p: seq<nat>)
    requires ViewOk(v) && c < Span(v)
    ensures |p| == |v.seen|
  {
    Position(v.seen, v.levels, v.frame.ended, v.centre, c)
  }

  ghost predicate Covers(v: View, units: set<nat>)
    requires ViewOk(v)
  {
    forall c :: c in units ==> c < Span(v)
  }

  /** A grid point of the frame, with what has ended at index zero. */
  ghost predicate PointOk(frame: Frame, p: seq<nat>) {
    && (forall c :: 0 <= c < |frame.grid| ==> frame.grid[c] != [])
    && |frame.ended| == |frame.grid| && InRange(First(frame.grid), p)
    && forall j :: 0 <= j < |p| && frame.ended[j] ==> p[j] == 0
  }

  lemma PointOkIff(g: Geometry, p: seq<nat>)
    requires GeoOk(g)
    ensures CentreOk(g, p) <==> PointOk(FrameOf(g), p)
  {
  }

  /** The peer's table goes at least as far as the server's, over the same resolutions. */
  ghost predicate Agrees(v: View, g: Geometry) {
    ViewOk(v) && v.frame == FrameOf(g) && Longer(g.grid, v.seen) && g.levels <= v.levels
  }

  /** Then every complexity of the server's table stands for the same point at the peer. */
  lemma AgreesPoint(v: View, g: Geometry, c: nat)
    requires CentreOk(g, v.centre) && Agrees(v, g) && c < Total(g)
    ensures c < Span(v) && Where(v, c) == Point(g, v.centre, c)
  {
    hide InRange, End, Position, Longer;
    SamePosition(g.grid, g.levels, v.seen, v.levels, g.ended, v.centre, c);
  }

  lemma AgreesTotal(v: View, g: Geometry)
    requires GeoOk(g) && Agrees(v, g)
    ensures Total(g) <= Span(v)
  {
    hide End;
    SameEnd(g.grid, v.seen, g.levels, g.levels);
    EndMono(v.seen, g.levels, v.levels);
  }

  /** A peer agrees with the server whose state it has taken over, whatever its build has read past the lists. */
  lemma ViewAgrees(host: Host, key: nat, g: Geometry, intended: nat, centre: seq<nat>, boot: bool)
    requires GeoOk(g) && Made(g, host.size, intended) && |centre| == |g.grid|
    ensures
      var v := ViewOf(host, key, Epoch(FrameOf(g), centre, boot));
      && Agrees(v, g) && EpochOf(v) == Epoch(FrameOf(g), centre, boot)
      && (v.seen == g.grid || Built(g.grid, host.size, |g.grid[0]|, 0).1)
  {
    hide Built, GridOk, Spilled;
    assert Buildable(FrameOf(g));
    var seen := ListsFound(host, key, FrameOf(g));
    BuiltMore(g.grid, seen, host.size, intended, |g.grid[0]|);
    GeoSizes(g);
  }

  lemma GeoSizes(g: Geometry)
    requires GeoOk(g)
    ensures forall c :: 0 <= c < |g.grid| ==> g.grid[c] != []
  {
  }

  /** When the peer's table is the server's: when its build reads past no list, and goes no further. */
  lemma SameTablesIff(host: Host, key: nat, g: Geometry, intended: nat, centre: seq<nat>, boot: bool)
    requires GeoOk(g) && Made(g, host.size, intended) && |centre| == |g.grid|
    ensures GridOk(g.grid, intended)
    ensures
      var v := ViewOf(host, key, Epoch(FrameOf(g), centre, boot));
      !Built(g.grid, host.size, |g.grid[0]|, 0).1 ==>
        (v.levels == g.levels <==>
           g.levels < intended || intended == |g.grid[0]| || !LevelEnding(g.grid, intended, host.size).Complete?)
  {
    MadeFine(g, host.size, intended);
    hide Built, LevelEnding;
    CoincideIff(g.grid, host.size, intended, |g.grid[0]|);
  }
}
