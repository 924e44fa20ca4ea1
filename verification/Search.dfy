/** The server's search as a state of its own, and its steps: a bootstrapping report, a peer report, a sync (which may
    advance a level or recentre) and a shrink. */
module Search {
  import opened Combos
  import opened Coefficients
  import opened Positions
  import opened Ranges
  import opened Sites
  import opened Duplicates

  datatype Option<T> = None | Some(value: T)

  /** `level == geo.levels` is the end iterator of the level metadata: everything around the centre is done. */
  datatype State = State(geo: Geometry, centre: seq<nat>, level: nat, remaining: set<nat>, accumulated: set<nat>,
                         visited: set<nat>, boot: bool, value: real, best: Option<nat>, redistribute: bool)

  ghost predicate Ok(s: State) {
    && CentreOk(s.geo, s.centre) && s.level < s.geo.levels
    && Inside(s.geo, s.remaining) && Inside(s.geo, s.accumulated)
    && (s.best.Some? ==> s.best.value < Total(s.geo))
  }

  /** Units a peer may have been handed around this centre: still on the list, or visited since. */
  ghost predicate Known(s: State, units: set<nat>)
    requires CentreOk(s.geo, s.centre)
  {
    forall c :: c in units ==> c < Total(s.geo) && (c in s.remaining || Site(s.geo, s.centre, c) in s.visited)
  }

  /** No place on the list twice, none of them visited. */
  ghost predicate Clean(s: State)
    requires CentreOk(s.geo, s.centre) && Inside(s.geo, s.remaining)
  {
    && Distinct(s.geo, s.centre, s.remaining)
    && forall c :: c in s.remaining ==> Site(s.geo, s.centre, c) !in s.visited
  }

  ghost predicate Inv(s: State) {
    && Ok(s) && Known(s, s.accumulated)
    && (s.boot ==> Booting(s))
    && (!s.boot ==> Centred(s))
  }

  ghost predicate Booting(s: State)
    requires Ok(s)
  {
    && s.level == 0 && s.visited == {} && s.accumulated == {} && s.best.None?
    && s.remaining == Points(Range(0, Upto(s.geo, 1)))
  }

  /** The coverage invariant: every complexity below the current level's end is still on the list, or its place is
      visited, or its place is that of one on the list. */
  ghost predicate Centred(s: State)
    requires Ok(s)
  {
    && CodeOf(s.geo, s.centre) in s.visited
    && Covered(s.geo, s.centre, Upto(s.geo, s.level + 1), s.remaining, s.visited)
    && (s.best.Some? ==> s.best.value in s.accumulated && s.redistribute)
    && (s.remaining == {} ==> s.redistribute)
    && (SkipsSafely(s.geo) ==> Clean(s))
  }

  // ----- Reports -----

  /** `reset_after_bootstrapping` for every coefficient: those that have ended keep their place. */
  ghost function BootCentre(g: Geometry, centre: seq<nat>, point: seq<nat>): (p: seq<nat>)
    requires GeoOk(g) && |centre| == |point| == |g.grid|
    ensures |p| == |g.grid|
  {
    seq(|centre|, j requires 0 <= j < |centre| => if g.ended[j] then centre[j] else point[j])
  }

  /** What remains of the first level around a new centre. The scan for duplicates the server makes when some
      coefficient has ended finds none. */
  ghost function FirstWork(g: Geometry, centre: seq<nat>, visited: set<nat>): (r: set<nat>)
    requires CentreOk(g, centre) && 1 <= g.levels
    ensures Inside(g, r)
  {
    LevelWork(g, centre, visited, 0)
  }

  lemma BootCentreOk(g: Geometry, centre: seq<nat>, point: seq<nat>)
    requires CentreOk(g, centre) && InRange(First(g.grid), point)
    ensures CentreOk(g, BootCentre(g, centre, point)) && 1 <= g.levels
  {
  }

  ghost function OnBootReport(s: State, point: seq<nat>, value: real): State
    requires Ok(s) && InRange(First(s.geo.grid), point)
  {
    BootCentreOk(s.geo, s.centre, point);
    var centre := BootCentre(s.geo, s.centre, point);
    var visited := {CodeOf(s.geo, centre)};
    s.(centre := centre, visited := visited, remaining := FirstWork(s.geo, centre, visited),
       boot := false, value := value, redistribute := false)
  }

  /** `find` is the complexity of a better find, if the report carries one; `idle` says that the reporting peer has
      nothing left of what it was handed. */
  ghost function OnPeerReport(s: State, value: real, find: Option<nat>, units: set<nat>, idle: bool): State {
    var t := s.(accumulated := s.accumulated + units, redistribute := s.redistribute || idle);
    if find.Some? && value < s.value then t.(value := value, best := find, redistribute := true) else t
  }

  // ----- A sync -----

  /** What was reported since the last sync becomes visited and leaves the list. `idle`: some peer ran out of work. */
  ghost function Absorb(s: State, idle: bool): (r: State)
    requires Ok(s)
    ensures Ok(r) && r.geo == s.geo && r.centre == s.centre && r.best == s.best && r.level == s.level
  {
    hide FineGrid, InRange, Total, Site;
    if s.accumulated == {} then s
    else
      s.(visited := s.visited + SitesOf(s.geo, s.centre, s.accumulated),
         remaining := s.remaining - s.accumulated, accumulated := {},
         redistribute := s.redistribute || idle || s.remaining - s.accumulated == {})
  }

  /** Moves on, level by level, until there is something to do or no level is left. */
  ghost function Advance(s: State): (r: State)
    requires Ok(s)
    decreases s.geo.levels - s.level
  {
    if s.remaining != {} then s
    else if s.level + 1 == s.geo.levels then s.(level := s.level + 1)
    else
      var work := LevelWork(s.geo, s.centre, s.visited, s.level + 1);
      Advance(s.(level := s.level + 1, remaining := work))
  }

  /** The centre moves to the best find; the first level is laid out around it anew. */
  ghost function Recentred(s: State): (r: State)
    requires Ok(s) && s.best.Some?
    ensures Ok(r) && r.geo == s.geo && r.level == 0 && r.best.None?
  {
    hide CentreOk, Total, Site, Point, Upto;
    PointIsCentreOk(s.geo, s.centre, s.best.value);
    var centre := Point(s.geo, s.centre, s.best.value);
    s.(centre := centre, best := None, level := 0, remaining := FirstWork(s.geo, centre, s.visited))
  }

  ghost function Sync(s: State, idle: bool): State
    requires Ok(s)
  {
    hide Ok;
    var a := Absorb(s, idle);
    if a.best.Some? then Advance(Recentred(a))
    else if a.redistribute then Advance(a)
    else a
  }

  /** The box shrinks: nothing is remembered of the old grid. */
  ghost function Shrunk(s: State, next: Geometry, largish: real): State
    requires GeoOk(next) && 1 <= next.levels
  {
    State(next, Zeros(|next.grid|), 0, Points(Range(0, Upto(next, 1))), {}, {}, true, largish, None, false)
  }

  function Zeros(n: nat): (p: seq<nat>)
    ensures |p| == n && forall j :: 0 <= j < n ==> p[j] == 0
  {
    seq(n, j => 0)
  }

  // ----- The invariant -----

  lemma BootReportKeepsInv(s: State, point: seq<nat>, value: real)
    requires Inv(s) && s.boot && InRange(First(s.geo.grid), point)
    requires exists j :: 0 <= j < |s.geo.ended| && !s.geo.ended[j]
    ensures Inv(OnBootReport(s, point, value)) && OnBootReport(s, point, value).remaining != {}
  {
    hide FineGrid, Total, Site, Upto, Covered, Distinct, CodeOf;
    BootCentreOk(s.geo, s.centre, point);
    var centre := BootCentre(s.geo, s.centre, point);
    LevelWorkFacts(s.geo, centre, {CodeOf(s.geo, centre)}, 0);
    FirstWorkExists(s.geo, centre);
  }

  /** While a coefficient is free there is a first place to go. */
  lemma FirstWorkExists(g: Geometry, centre: seq<nat>)
    requires CentreOk(g, centre) && 1 <= g.levels && exists j :: 0 <= j < |g.ended| && !g.ended[j]
    ensures FirstWork(g, centre, {CodeOf(g, centre)}) != {}
  {
    hide Decode, End, MoveOk, Point, FineGrid, Encode, CodeOf;
    var j :| 0 <= j < |g.ended| && !g.ended[j];
    Levels(g, 0);
    FirstRes(g, 0, j);
    var c := FirstMove(g, centre, j, if centre[j] == 0 then 1 else 0);
    PointIsCentreOk(g, centre, c);
    SameSite(g, Point(g, centre, c), centre);
    assert c in Fresh(g, centre, {CodeOf(g, centre)}, 0, Upto(g, 1));
  }

  lemma FirstMove(g: Geometry, centre: seq<nat>, j: nat, digit: nat) returns (c: nat)
    requires CentreOk(g, centre) && j < |g.grid| && !g.ended[j] && g.grid[j] != [] && digit < g.grid[j][0]
    ensures 1 <= g.levels && c < Upto(g, 1) && Point(g, centre, c)[j] == digit
  {
    hide Decode, End, MoveOk, Point, FineGrid, Encode, CodeOf;
    SomeLevel(g);
    Levels(g, 0);
    FirstRes(g, 0, j);
    var m := SomeMove(g.grid, g.levels, 0, [j], [digit]);
    EncodeThenDecode(g.grid, g.levels, m);
    c := Encode(g.grid, g.levels, m);
    Landing(g, centre, c, m, 0);
    RescaleIdentity(digit, g.grid[j][0]);
  }

  lemma PeerReportKeepsInv(s: State, value: real, find: Option<nat>, units: set<nat>, idle: bool)
    requires Inv(s) && !s.boot && Known(s, units)
    requires find.Some? ==> find.value in units
    ensures Inv(OnPeerReport(s, value, find, units, idle))
  {
    hide FineGrid, InRange, Total, Site, Upto, Covered, Distinct, CodeOf;
  }

  /** Between the parts of a sync: nothing is waiting to be absorbed. */
  ghost predicate Settled(s: State) {
    && Ok(s) && !s.boot && s.accumulated == {}
    && CodeOf(s.geo, s.centre) in s.visited
    && Covered(s.geo, s.centre, Upto(s.geo, s.level + 1), s.remaining, s.visited)
    && (s.remaining == {} ==> s.redistribute)
    && (SkipsSafely(s.geo) ==> Clean(s))
  }

  lemma AbsorbSettles(s: State, idle: bool)
    requires Inv(s) && !s.boot
    ensures Settled(Absorb(s, idle))
    ensures s.best.Some? ==> Site(s.geo, s.centre, s.best.value) in Absorb(s, idle).visited && Absorb(s, idle).redistribute
  {
    hide FineGrid, InRange, Total, Site, Upto, Covered, CodeOf, SkipsSafely;
    CoveredAbsorb(s.geo, s.centre, Upto(s.geo, s.level + 1), s.remaining, s.visited, s.accumulated);
    if SkipsSafely(s.geo) { CleanAbsorb(s, idle); }
  }

  /** Reported units are on the list or long visited, so what stays on the list is neither. */
  lemma CleanAbsorb(s: State, idle: bool)
    requires Ok(s) && Known(s, s.accumulated) && Clean(s)
    ensures Clean(Absorb(s, idle))
  {
    hide FineGrid, InRange, Total, Site, Upto;
    var a := Absorb(s, idle);
    if s.accumulated != {} {
      forall c | c in a.remaining ensures Site(s.geo, s.centre, c) !in a.visited {
        forall d | d in s.accumulated ensures Site(s.geo, s.centre, d) != Site(s.geo, s.centre, c) {
          assert d in s.remaining || Site(s.geo, s.centre, d) in s.visited;
        }
      }
    }
  }

  lemma AllVisited(s: State)
    requires Settled(s) && s.remaining == {}
    ensures forall c :: 0 <= c < Upto(s.geo, s.level + 1) ==> Site(s.geo, s.centre, c) in s.visited
  {
    hide FineGrid, InRange, Total, Site, Upto, CodeOf, SkipsSafely, Clean;
    CoveredDone(s.geo, s.centre, Upto(s.geo, s.level + 1), s.visited);
  }

  lemma {:induction false} AdvanceSettles(s: State)
    requires Settled(s)
    ensures
      var r := Advance(s);
      && r == s.(level := r.level, remaining := r.remaining) && r.level <= r.geo.levels
      && (r.level < r.geo.levels ==> Settled(r) && r.remaining != {})
      && (r.level == r.geo.levels ==>
            forall c :: 0 <= c < Total(s.geo) ==> Site(s.geo, s.centre, c) in s.visited)
    decreases s.geo.levels - s.level
  {
    hide FineGrid, InRange, Total, Site, Covered, CodeOf, SkipsSafely, Distinct, LevelWork;
    if s.remaining == {} {
      AllVisited(s);
      if s.level + 1 < s.geo.levels {
        NextSettled(s);
        AdvanceSettles(NextLevel(s));
      }
    }
  }

  ghost function NextLevel(s: State): (r: State)
    requires Ok(s) && s.level + 1 < s.geo.levels
  {
    s.(level := s.level + 1, remaining := LevelWork(s.geo, s.centre, s.visited, s.level + 1))
  }

  lemma NextSettled(s: State)
    requires Settled(s) && s.level + 1 < s.geo.levels && s.remaining == {}
    requires forall c :: 0 <= c < Upto(s.geo, s.level + 1) ==> Site(s.geo, s.centre, c) in s.visited
    ensures Settled(NextLevel(s))
  {
    hide FineGrid, InRange, Total, Site, Upto, Covered, CodeOf, SkipsSafely, LevelWork;
    UptoMono(s.geo, s.level + 1, s.level + 2);
    LevelWorkFacts(s.geo, s.centre, s.visited, s.level + 1);
  }

  lemma RecentredSettles(s: State)
    requires Settled(s) && s.best.Some? && s.redistribute
    requires Site(s.geo, s.centre, s.best.value) in s.visited
    ensures Settled(Recentred(s))
  {
    hide FineGrid, InRange, Total, Upto, Covered, CodeOf, SkipsSafely, LevelWork, Point;
    PointIsCentreOk(s.geo, s.centre, s.best.value);
    UptoMono(s.geo, 0, 1);
    LevelWorkFacts(s.geo, Point(s.geo, s.centre, s.best.value), s.visited, 0);
  }

  /** Coverage before shrink: a sync either leaves a list that is not empty and keeps the invariant, or it runs past
      the last level, and then the place of every complexity around the centre has been visited. */
  lemma SyncKeepsInv(s: State, idle: bool)
    requires Inv(s) && !s.boot
    ensures
      var r := Sync(s, idle);
      && r.geo == s.geo && r.best.None? && r.accumulated == {} && !r.boot
      && r.centre == (if s.best.Some? then Point(s.geo, s.centre, s.best.value) else s.centre)
      && (r.level < r.geo.levels ==> Inv(r.(redistribute := false)) && r.remaining != {})
      && (r.level >= r.geo.levels ==>
            && CentreOk(r.geo, r.centre) && r.level == r.geo.levels
            && forall c :: 0 <= c < Total(r.geo) ==> Site(r.geo, r.centre, c) in r.visited)
  {
    hide FineGrid, InRange, Total, Site, Upto, Covered, CodeOf, SkipsSafely, LevelWork, Point, Distinct, Advance, Absorb;
    AbsorbSettles(s, idle);
    var a := Absorb(s, idle);
    if a.best.Some? {
      RecentredSettles(a);
      AdvanceSettles(Recentred(a));
    } else if a.redistribute {
      AdvanceSettles(a);
    }
  }

  lemma ZerosOk(g: Geometry)
    requires GeoOk(g)
    ensures 1 <= g.levels && CentreOk(g, Zeros(|g.grid|))
  {
    forall j | 0 <= j < |g.grid| ensures 0 < First(g.grid)[j] {
      assert Res(g.grid, j, 0) <= g.grid[j][0];
    }
  }

  lemma ShrunkInv(s: State, next: Geometry, largish: real)
    requires GeoOk(next)
    ensures 1 <= next.levels && Inv(Shrunk(s, next, largish))
  {
    hide Total, Upto, CentreOk, FineGrid;
    ZerosOk(next);
  }
}
