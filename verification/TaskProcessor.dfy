/** `task_processor`: the server object whose methods carry the search out over its maps and sets. */
module TaskProcessor {
  import opened Ranges
  import opened Combos
  import opened Coefficients
  import opened Positions
  import opened Demodulation
  import opened CombosBuilder
  import opened Sites
  import opened Tables
  import opened Zooming
  import opened Duplicates
  import opened Search

  /** The coefficients, the table and the count of free coefficients agree with the geometry. */
  ghost predicate Sound(geo: Geometry, all: seq<Coefficient>, combos: seq<Combo>, metadata: seq<Level>, top: nat,
                        wait: nat) {
    && CentreOk(geo, Now(all)) && geo.grid == GridOf(all) && geo.ended == Ended(all)
    && PlacesOk(all) && EndedAtRest(all) && |all| < top
    && combos == Table(geo.grid, geo.levels) && metadata == Metadata(geo.grid, geo.levels)
    && wait == Free(geo.ended)
  }

  function Free(ended: seq<bool>): (n: nat)
    ensures n <= |ended|
    ensures n == |ended| <==> forall j :: 0 <= j < |ended| ==> !ended[j]
  {
    if ended == [] then 0
    else
      var n := Free(ended[..|ended| - 1]);
      assert forall j :: 0 <= j < |ended| - 1 ==> ended[..|ended| - 1][j] == ended[j];
      if ended[|ended| - 1] then n else n + 1
  }

  lemma SoundParts(geo: Geometry, all: seq<Coefficient>, combos: seq<Combo>, metadata: seq<Level>, top: nat, wait: nat)
    requires Sound(geo, all, combos, metadata, top, wait)
    ensures CentreOk(geo, Now(all)) && GeoOk(geo) && geo.grid == GridOf(all) && geo.ended == Ended(all)
    ensures FineGrid(geo.grid, geo.levels) && |all| == |geo.grid| < top && PlacesOk(all) && EndedAtRest(all)
    ensures combos == Table(geo.grid, geo.levels) && metadata == Metadata(geo.grid, geo.levels)
    ensures |metadata| == geo.levels >= 1
    ensures forall l :: 0 <= l < geo.levels ==> metadata[l].end == Upto(geo, l + 1)
    ensures wait == |geo.ended| <==> forall j :: 0 <= j < |geo.ended| ==> !geo.ended[j]
  {
    SomeLevel(geo);
  }

  lemma SoundCentre(geo: Geometry, all: seq<Coefficient>, combos: seq<Combo>, metadata: seq<Level>, top: nat, wait: nat)
    requires Sound(geo, all, combos, metadata, top, wait)
    ensures CentreOk(geo, Now(all)) && GeoOk(geo)
  {
  }

  /** What a run of `demodulate` needs. */
  lemma SoundHeaded(geo: Geometry, all: seq<Coefficient>, combos: seq<Combo>, metadata: seq<Level>, top: nat, wait: nat)
    requires Sound(geo, all, combos, metadata, top, wait)
    ensures CentreOk(geo, Now(all)) && geo.grid == GridOf(all) && geo.ended == Ended(all) && PlacesOk(all)
    ensures GridOk(geo.grid, geo.levels) && Headed(geo.grid, all) && EndedAtRest(all) && EndedAtZero(all) && |all| < top
    ensures combos == Table(geo.grid, geo.levels) && metadata == Metadata(geo.grid, geo.levels)
  {
    forall j | 0 <= j < |all| && all[j].ended ensures all[j].now == 0 {
      assert geo.ended[j] && Now(all)[j] == 0;
    }
  }

  /** Demodulating moves nothing but the working values. */
  lemma SoundMoved(geo: Geometry, was: seq<Coefficient>, combos: seq<Combo>, metadata: seq<Level>, top: nat, wait: nat,
                   c: nat, calls: seq<nat>, now: seq<Coefficient>, offset: nat, called: seq<nat>)
    requires Sound(geo, was, combos, metadata, top, wait) && c < Total(geo)
    requires Moved(geo.grid, Decode(geo.grid, geo.levels, c), was, 0, calls, now, offset, called, 0)
    ensures Sound(geo, now, combos, metadata, top, wait) && Now(now) == Now(was) && |now| == |was|
    ensures Tmp(now) == Point(geo, Now(was), c) && offset == Site(geo, Now(was), c)
  {
    hide FineGrid, Moved, Decode, Table, Metadata, EndedAtRest, EndedAtZero, Headed, Free, InRange;
    SoundHeaded(geo, was, combos, metadata, top, wait);
    MovedAll(geo.grid, geo.levels, c, was, 0, calls, now, offset, called);
    PointIsCentreOk(geo, Now(was), c);
    assert GridOf(now) == GridOf(was) && Ended(now) == Ended(was) && Now(now) == Now(was);
    StillAtRest(geo, was, now, Point(geo, Now(was), c));
  }

  lemma StillAtRest(geo: Geometry, was: seq<Coefficient>, now: seq<Coefficient>, p: seq<nat>)
    requires EndedAtZero(was) && CentreOk(geo, p) && |was| == |now| == |p| && geo.ended == Ended(was)
    requires forall j :: 0 <= j < |was| ==> now[j] == was[j].(tmp := p[j])
    ensures EndedAtRest(now)
  {
  }

  lemma SomethingAt(grid: Grid, l: nat)
    requires GridOk(grid, l + 1) && l + 1 <= |grid|
    ensures End(grid, l) < End(grid, l + 1)
  {
    hide LaySize, Product;
    LevelSubsOk(grid, l);
    var s := seq(l + 1, k requires k >= 0 => k);
    var i := SubsetsComplete(s, 0, |grid|);
    var subs := Subsets(0, l + 1, |grid|);
    LaySizeMono(grid, l, subs, i, |subs|);
    assert subs[..|subs|] == subs;
  }

  lemma SomeRoom(geo: Geometry, limit: nat, intended: nat)
    requires Made(geo, limit, intended) && 1 <= geo.levels
    ensures limit > 0
  {
    hide End, Built, LevelSize, Fine, FineGrid;
    MadeFine(geo, limit, intended);
    SomethingAt(geo.grid, 0);
    EndStart(geo.grid);
  }

  lemma FirstLists(grid: Grid)
    requires grid != [] && 1 <= |grid[0]| <= |grid|
    requires forall c :: 0 <= c < |grid| ==> Fine(grid[c]) && |grid[c]| == |grid[0]|
    ensures Ample(grid, |grid[0]|) && GridOk(grid, 1) && End(grid, 1) > 0
  {
    hide Fine;
    SomethingAt(grid, 0);
    EndStart(grid);
  }

  /** How a fresh task, or one after a shrink, stands: index zero everywhere, the first level to be done. */
  lemma FreshSound(geo: Geometry, all: seq<Coefficient>, combos: seq<Combo>, metadata: seq<Level>, top: nat)
    requires GeoOk(geo) && geo.grid == GridOf(all) && geo.ended == Ended(all) && PlacesOk(all) && |all| < top
    requires forall c :: 0 <= c < |all| ==> all[c].now == all[c].tmp == 0
    requires combos == Table(geo.grid, geo.levels) && metadata == Metadata(geo.grid, geo.levels)
    ensures Sound(geo, all, combos, metadata, top, Free(geo.ended)) && Now(all) == Zeros(|geo.grid|)
  {
    hide FineGrid, Table, Metadata, Free, PlacesOk;
    ZerosOk(geo);
    assert Now(all) == Zeros(|geo.grid|);
  }

  lemma OnePoint(c: nat)
    ensures Points(Range(c, 1)) == {c}
  {
    assert forall x :: Within(x, Range(c, 1)) <==> x == c;
  }

  lemma NothingKept(s: seq<Range>)
    requires s == []
    ensures Canonical(s) && Union(s) == {}
  {
  }

  lemma LevelSizes(g: Geometry, l: nat)
    requires GeoOk(g) && l < g.levels
    ensures Upto(g, l) < Upto(g, l + 1)
  {
    SomethingAt(g.grid, l);
  }

  /** What a sync sends: nothing new, the lists, the new centre, or the smaller box. */
  datatype Outcome = Quiet | Complexities | Recentre | Shrink

  /** The server's maps of what its peers were handed are different objects. */
  ghost predicate Apart(peers: seq<RangeMap>) {
    forall i, j :: 0 <= i < j < |peers| ==> peers[i] != peers[j]
  }

  /** `subtract_from_remaining_complexities` for every peer: which peers others have done work for, and whether some map ran
      empty. */
  method SubtractFromPeers(peers: seq<RangeMap>, b: seq<Range>) returns (assisted: seq<bool>, idle: bool)
    requires Apart(peers) && Canonical(b) && b != [] && forall k :: 0 <= k < |peers| ==> peers[k].Valid()
    modifies peers
    ensures |assisted| == |peers| && (idle <==> exists k :: 0 <= k < |peers| && peers[k].Contents() == {})
    ensures forall k :: 0 <= k < |peers| ==>
              && peers[k].Valid() && peers[k].Contents() == old(peers[k].Contents()) - Union(b)
              && (assisted[k] <==> peers[k].Contents() != old(peers[k].Contents()))
  {
    hide Canonical, Union;
    assisted, idle := [], false;
    for k := 0 to |peers|
      invariant |assisted| == k && (idle <==> exists j :: 0 <= j < k && peers[j].Contents() == {})
      invariant forall j :: 0 <= j < |peers| ==>
                  && peers[j].Valid()
                  && peers[j].Contents() == if j < k then old(peers[j].Contents()) - Union(b) else old(peers[j].Contents())
      invariant forall j :: 0 <= j < k ==> (assisted[j] <==> peers[j].Contents() != old(peers[j].Contents()))
    {
      var changed := peers[k].SubtractAll(b);
      assisted := assisted + [changed];
      EmptyUnion(peers[k].ranges);
      if peers[k].ranges == [] {
        idle := true;
      }
    }
  }

  class TaskProcessor {
    const coefficients: CoefficientArray
    const modem: Builder
    const remaining: RangeMap
    const accumulated: RangeMap
    const duplicates: RangeMap
    /** The largest value of the index type. */
    const top: nat
    /** How many complexities a table may have. */
    const limit: nat
    var intended: nat
    var visited: set<nat>
    var uniques: set<nat>
    var level: nat
    var wait: nat
    var boot: bool
    var value: real
    var best: Option<nat>
    var redistribute: bool
    ghost var geo: Geometry

    ghost predicate Ready()
      reads this, coefficients, modem, remaining, accumulated, duplicates
    {
      && remaining != accumulated && remaining != duplicates && accumulated != duplicates
      && remaining.Valid() && accumulated.Valid() && Made(geo, limit, intended)
      && Sound(geo, coefficients.all, modem.combos, modem.metadata, top, wait)
    }

    ghost predicate Valid()
      reads this, coefficients, modem, remaining, accumulated, duplicates
    {
      Ready() && duplicates.ranges == [] && uniques == {}
    }

    ghost function Centre(): seq<nat>
      reads this, coefficients
    {
      Now(coefficients.all)
    }

    ghost function Abstract(): State
      reads this, coefficients, remaining, accumulated
    {
      State(geo, Centre(), level, remaining.Contents(), accumulated.Contents(), visited, boot, value, best,
            redistribute)
    }

    /** A fresh task: everything at index zero, the first level to be done, bootstrapping. The lists are as the controller
        makes them: of one length, the first resolution the finest, and at least the first level fits. */
    constructor (grid: Grid, box: seq<Box>, limit: nat, top: nat, largish: real)
      requires |grid| == |box| && 0 < |grid| < top && 1 <= |grid[0]| <= |grid|
      requires forall c :: 0 <= c < |grid| ==> Fine(grid[c]) && |grid[c]| == |grid[0]|
      requires End(grid, 1) <= limit
      ensures Valid() && fresh(coefficients) && fresh(modem) && fresh(remaining) && fresh(accumulated) && fresh(duplicates)
      ensures geo.grid == grid && geo.ended == seq(|grid|, j => false) && geo.box == box
      ensures Made(geo, limit, |grid[0]|) && Abstract() == Shrunk(Abstract(), geo, largish)
    {
      hide Table, Metadata, End, Points, Union, Canonical, Built, Sound, PlacesOk, Ample, Fine, GeoOk, Made, GridOk, Free;
      FirstLists(grid);
      coefficients := new CoefficientArray(grid);
      modem := new Builder();
      remaining := new RangeMap();
      accumulated := new RangeMap();
      duplicates := new RangeMap();
      this.top, this.limit := top, limit;
      visited, uniques, level, wait, intended := {}, {}, 0, |grid|, |grid[0]|;
      boot, value, best, redistribute := true, largish, None, false;
      new;
      NothingKept(remaining.ranges);
      NothingKept(accumulated.ranges);
      var ended := seq(|grid|, j => false);
      assert Ended(coefficients.all) == ended && GridOf(coefficients.all) == grid;
      var ok := StartOver(ended, box);
    }

    /** `offset = 0; combos_modem.demodulate(c, ...)`: the site of a complexity. */
    method Offset(c: nat) returns (site: nat)
      requires Sound(geo, coefficients.all, modem.combos, modem.metadata, top, wait) && c < Total(geo)
      modifies coefficients
      ensures Sound(geo, coefficients.all, modem.combos, modem.metadata, top, wait)
      ensures Centre() == old(Centre()) && CentreOk(geo, Centre())
      ensures site == Site(geo, Centre(), c) && Tmp(coefficients.all) == Point(geo, Centre(), c)
    {
      hide Made, Sound, FineGrid, Moved, Decode, Table, Metadata, EndedAtRest, PlacesOk, Headed, EndedAtZero;
      ghost var was := coefficients.all;
      SoundHeaded(geo, was, modem.combos, modem.metadata, top, wait);
      coefficients.offset := 0;
      ghost var calls := coefficients.calls;
      modem.Demodulate(c, coefficients, top, geo.grid, geo.levels);
      SoundMoved(geo, was, modem.combos, modem.metadata, top, wait, c, calls,
                 coefficients.all, coefficients.offset, coefficients.calls);
      site := coefficients.offset;
      SoundCentre(geo, coefficients.all, modem.combos, modem.metadata, top, wait);
    }

    /** Drops one complexity if its place has been visited. */
    method DropVisited(i: nat)
      requires Ready() && i < Total(geo)
      modifies coefficients, remaining
      ensures Ready() && Centre() == old(Centre()) && CentreOk(geo, Centre())
      ensures remaining.Contents() == old(remaining.Contents()) - if Site(geo, Centre(), i) in visited then {i} else {}
    {
      hide Made, Sound, Canonical, Union, CentreOk, Total, Site, Points, Tmp, Point, Table, Metadata;
      var site := Offset(i);
      OnePoint(i);
      if site in visited {
        remaining.Subtract(Range(i, 1));
      }
    }

    /** `reduce_remaining_complexities`. */
    method ReduceRemaining(begin: nat, end: nat)
      requires Ready() && begin <= end <= Total(geo) && Inside(geo, remaining.Contents())
      modifies coefficients, remaining
      ensures Ready() && Centre() == old(Centre()) && CentreOk(geo, Centre()) && Inside(geo, old(remaining.Contents()))
      ensures remaining.Contents() == Reduced(geo, Centre(), old(remaining.Contents()), visited, begin, end)
    {
      hide Made, Sound, Canonical, Union, CentreOk, Total, Site, Inside, Reduced, Points;
      SoundCentre(geo, coefficients.all, modem.combos, modem.metadata, top, wait);
      ghost var work := remaining.Contents();
      ReducedNone(geo, Centre(), work, visited, begin);
      for i := begin to end
        invariant Ready() && Centre() == old(Centre()) && CentreOk(geo, Centre())
        invariant remaining.Contents() == Reduced(geo, Centre(), work, visited, begin, i)
      {
        ReducedStep(geo, Centre(), work, visited, begin, i);
        DropVisited(i);
      }
    }

    /** One unit of a scan: its place is either new or the unit is noted as a duplicate. */
    method ScanUnit(c: nat, ghost work: set<nat>)
      requires Ready() && duplicates.Valid() && CentreOk(geo, Centre()) && Inside(geo, work) && c in work
      requires Scanned(geo, Centre(), work, c, uniques, duplicates.Contents())
      modifies coefficients, duplicates, this`uniques
      ensures Ready() && duplicates.Valid() && Centre() == old(Centre()) && CentreOk(geo, Centre())
      ensures Scanned(geo, Centre(), work, c + 1, uniques, duplicates.Contents())
    {
      hide Made, Sound, Canonical, Union, CentreOk, Total, Site, Scanned;
      ScanStep(geo, Centre(), work, c, uniques, duplicates.Contents());
      var site := Offset(c);
      if site in uniques {
        OnePoint(c);
        duplicates.Add(Range(c, 1));
      }
      uniques := uniques + {site};
    }

    method ScanRange(r: Range, ghost work: set<nat>)
      requires Ready() && duplicates.Valid() && CentreOk(geo, Centre()) && Inside(geo, work) && Points(r) <= work
      requires Scanned(geo, Centre(), work, r.start, uniques, duplicates.Contents())
      modifies coefficients, duplicates, this`uniques
      ensures Ready() && duplicates.Valid() && Centre() == old(Centre()) && CentreOk(geo, Centre())
      ensures Scanned(geo, Centre(), work, r.End(), uniques, duplicates.Contents())
    {
      hide Made, Sound, Canonical, Union, CentreOk, Total, Site, Scanned;
      for j := 0 to r.size
        invariant Ready() && duplicates.Valid() && Centre() == old(Centre()) && CentreOk(geo, Centre())
        invariant Scanned(geo, Centre(), work, r.start + j, uniques, duplicates.Contents())
      {
        assert Within(r.start + j, r);
        ScanUnit(j + r.start, work);
      }
    }

    /** Subtracts what a scan noted and forgets the scan. */
    method DropNoted()
      requires Ready() && duplicates.Valid()
      modifies remaining, duplicates, this`uniques
      ensures Valid() && remaining.Contents() == old(remaining.Contents() - duplicates.Contents())
    {
      hide Made, Sound, Canonical, Union;
      if duplicates.ranges != [] {
        var changed := remaining.SubtractAll(duplicates.ranges);
        duplicates.Clear();
      } else {
        NothingKept(duplicates.ranges);
      }
      uniques := {};
    }

    /** The explicit scan of a new level. */
    method DropDuplicates()
      requires Valid() && CentreOk(geo, Centre()) && Inside(geo, remaining.Contents())
      modifies coefficients, remaining, duplicates, this`uniques
      ensures Valid() && Centre() == old(Centre()) && CentreOk(geo, Centre())
      ensures Inside(geo, old(remaining.Contents()))
      ensures remaining.Contents() == Firsts(geo, Centre(), old(remaining.Contents()))
    {
      hide Made, Sound, Canonical, Union, CentreOk, Total, Site, Scanned, Firsts, Inside;
      ghost var work, x: nat := remaining.Contents(), 0;
      NothingKept(duplicates.ranges);
      ScanNothing(geo, Centre(), work);
      for i := 0 to |remaining.ranges|
        invariant Ready() && duplicates.Valid() && Centre() == old(Centre()) && CentreOk(geo, Centre())
        invariant remaining.ranges == old(remaining.ranges)
        invariant Scanned(geo, Centre(), work, x, uniques, duplicates.Contents())
        invariant x == if i == 0 then 0 else remaining.ranges[i - 1].End()
      {
        ghost var r := remaining.ranges[i];
        RangeGap(remaining.ranges, i);
        ScanSkip(geo, Centre(), work, x, r.start, uniques, duplicates.Contents());
        UnionMember(remaining.ranges, i);
        ScanRange(remaining.ranges[i], work);
        x := r.End();
      }
      RangeLast(remaining.ranges);
      ScanDone(geo, Centre(), work, x, uniques, duplicates.Contents());
      DropNoted();
    }

    /** Whether the new level must be scanned: the loop that compares its resolutions with the first level's. */
    method NeedsScan() returns (needed: bool)
      requires Valid() && level < geo.levels && GeoOk(geo)
      ensures needed <==> ScanNeeded(geo, level)
    {
      hide Table, FineGrid, InRange, PlacesOk, EndedAtRest, Free, Made, Sound, CentreOk, Canonical;
      SoundParts(geo, coefficients.all, modem.combos, modem.metadata, top, wait);
      Levels(geo, level);
      Levels(geo, 0);
      needed := Differs(modem.metadata[level].res, modem.metadata[0].res, wait != |coefficients.all|);
    }

    static method Differs(now: seq<nat>, first: seq<nat>, ended: bool) returns (some: bool)
      requires |now| == |first| > 0
      ensures some <==> now != first || ended
    {
      for i := 0 to |now|
        invariant now[..i] == first[..i] && (i > 0 ==> !ended)
      {
        if now[i] != first[i] || ended {
          return true;
        }
      }
      some := false;
    }

    lemma LevelHere()
      requires Ready() && Ok(Abstract())
      ensures level < geo.levels == |modem.metadata| && modem.metadata[level].end == Upto(geo, level + 1)
      ensures CentreOk(geo, Centre()) && GeoOk(geo)
    {
      SoundParts(geo, coefficients.all, modem.combos, modem.metadata, top, wait);
    }

    /** Lays out the level just entered. */
    method EnterLevel(first: nat)
      requires Valid() && 0 < level < geo.levels && CentreOk(geo, Centre()) && first == Upto(geo, level)
      requires remaining.Contents() == {}
      modifies coefficients, remaining, duplicates, this`uniques
      ensures Valid() && Centre() == old(Centre()) && CentreOk(geo, Centre())
      ensures remaining.Contents() == LevelWork(geo, Centre(), visited, level)
    {
      hide Made, Sound, Canonical, Union, Total, Site, Scanned, Firsts, Inside, Upto, FineGrid, InRange, Points, ScanNeeded,
           CentreOk, GeoOk, Reduced, Sites.Fresh, Table, Metadata, PlacesOk, EndedAtRest;
      SoundParts(geo, coefficients.all, modem.combos, modem.metadata, top, wait);
      LevelSizes(geo, level);
      var end := modem.metadata[level].end;
      remaining.Add(Range(first, end - first));
      ghost var work := remaining.Contents();
      assert work == Points(Range(first, end - first));
      InsidePoints(geo, first, end, work);
      ReduceRemaining(first, end);
      ReducedFresh(geo, Centre(), work, visited, first, end);
      FreshInside(geo, Centre(), visited, first, end);
      var scan := NeedsScan();
      if scan {
        DropDuplicates();
      }
    }

    /** One round of the loop over the levels: the next level is laid out, if there is one. */
    method GoToNextLevel() returns (some: bool)
      requires Valid() && Ok(Abstract()) && remaining.ranges == []
      modifies coefficients, remaining, duplicates, this`uniques, this`level
      ensures Valid() && level == old(level) + 1 <= geo.levels && (some <==> level < geo.levels)
      ensures Ok(old(Abstract())) && (some ==> Abstract() == NextLevel(old(Abstract())))
      ensures !some ==> Abstract() == old(Abstract()).(level := level)
    {
      hide Made, Sound, Canonical, Union, Total, Site, Upto, FineGrid, LevelWork, Advance, Ok, CentreOk, GeoOk;
      LevelHere();
      EmptyUnion(remaining.ranges);
      var first := modem.metadata[level].end;
      level := level + 1;
      some := level != |modem.metadata|;
      if some {
        EnterLevel(first);
      }
    }

    /** `do_redistribute_remaining_complexities`, up to the handing out. */
    method Redistribute() returns (some: bool)
      requires Valid() && Ok(Abstract())
      modifies coefficients, remaining, duplicates, this`uniques, this`level
      ensures Valid() && Abstract() == Advance(old(Abstract())) && (some <==> level < geo.levels)
      ensures some ==> remaining.ranges != []
    {
      hide Made, Sound, Canonical, Union, Ok, NextLevel, Advance;
      some := true;
      while remaining.ranges == []
        invariant Valid() && Ok(Abstract()) && Advance(Abstract()) == Advance(old(Abstract()))
        decreases geo.levels - level
      {
        EmptyUnion(remaining.ranges);
        AdvanceStep(Abstract());
        some := GoToNextLevel();
        if !some {
          return;
        }
      }
      EmptyUnion(remaining.ranges);
      AdvanceStep(Abstract());
    }

    /** The first level around a new centre. */
    method ReduceFirstLevel()
      requires Ready() && 1 <= geo.levels && remaining.Contents() == Points(Range(0, Upto(geo, 1)))
      modifies coefficients, remaining
      ensures Ready() && Centre() == old(Centre()) && CentreOk(geo, Centre())
      ensures remaining.Contents() == Fresh(geo, Centre(), visited, 0, Upto(geo, 1))
    {
      hide Made, Sound, Canonical, Union, CentreOk, Total, Site, Inside, Reduced, Points, Upto, Fresh;
      ghost var work := remaining.Contents();
      SoundParts(geo, coefficients.all, modem.combos, modem.metadata, top, wait);
      InsidePoints(geo, 0, Upto(geo, 1), work);
      ReduceRemaining(0, modem.metadata[0].end);
      ReducedFresh(geo, Centre(), work, visited, 0, Upto(geo, 1));
    }

    /** The first level around the bootstrapped centre when some coefficient has ended: the scan runs over all of it. */
    method ScanFirstLevel()
      requires Ready() && duplicates.ranges == [] && uniques == {} && CentreOk(geo, Centre())
      requires 1 <= geo.levels && remaining.Contents() == Points(Range(0, Upto(geo, 1))) && CodeOf(geo, Centre()) in visited
      modifies coefficients, remaining, duplicates, this`uniques
      ensures Valid() && Centre() == old(Centre()) && CentreOk(geo, Centre())
      ensures remaining.Contents() == Fresh(geo, Centre(), visited, 0, Upto(geo, 1))
    {
      hide Made, Sound, Canonical, Union, Total, Site, Scanned, Firsts, Upto, CentreOk, Points, CodeOf, Inside, Reduced,
           Fresh;
      hide Table, Metadata, GeoOk, PlacesOk, EndedAtRest, FineGrid;
      ghost var work := remaining.Contents();
      SoundParts(geo, coefficients.all, modem.combos, modem.metadata, top, wait);
      InsidePoints(geo, 0, Upto(geo, 1), work);
      NothingKept(duplicates.ranges);
      ScanNothing(geo, Centre(), work);
      ReducedNone(geo, Centre(), work, visited, 0);
      for i := 0 to modem.metadata[0].end
        invariant Ready() && duplicates.Valid() && Centre() == old(Centre()) && CentreOk(geo, Centre())
        invariant Scanned(geo, Centre(), work, i, uniques, duplicates.Contents())
        invariant remaining.Contents() == Reduced(geo, Centre(), work, visited, 0, i)
      {
        assert i in work;
        ScanUnit(i, work);
        ReducedStep(geo, Centre(), work, visited, 0, i);
        DropVisited(i);
      }
      ScanDone(geo, Centre(), work, Upto(geo, 1), uniques, duplicates.Contents());
      ScanLeft(work, duplicates.Contents(), Firsts(geo, Centre(), work), remaining.Contents());
      BootScanIdle(geo, Centre(), visited, work);
      DropNoted();
    }

    method FirstLevelWork()
      requires Valid() && CentreOk(geo, Centre()) && CodeOf(geo, Centre()) in visited
      requires 1 <= geo.levels && remaining.Contents() == Points(Range(0, Upto(geo, 1)))
      modifies coefficients, remaining, duplicates, this`uniques
      ensures Valid() && Centre() == old(Centre()) && CentreOk(geo, Centre())
      ensures remaining.Contents() == Fresh(geo, Centre(), visited, 0, Upto(geo, 1))
    {
      hide Made, Sound, Canonical, Union, Total, Upto, Points, CodeOf, CentreOk, Fresh;
      if wait == |coefficients.all| {
        ReduceFirstLevel();
      } else {
        ScanFirstLevel();
      }
    }

    /** Every coefficient goes to its reported index; the new centre is the first visited place. */
    method GoToReported(point: seq<nat>)
      requires Valid() && InRange(First(geo.grid), point) && visited == {}
      modifies coefficients, this`visited
      ensures Valid() && |old(Centre())| == |point| == |geo.grid| && GeoOk(geo)
      ensures Centre() == BootCentre(geo, old(Centre()), point) && CentreOk(geo, Centre())
      ensures visited == {CodeOf(geo, Centre())}
    {
      hide Made, Sound, Canonical, Total, CodeOf, PlacesOk, EndedAtRest, CentreOk, GeoOk;
      SoundParts(geo, coefficients.all, modem.combos, modem.metadata, top, wait);
      ghost var was := coefficients.all;
      coefficients.offset := 0;
      coefficients.ResetAfterBootstrapping(point);
      SoundBooted(geo, was, modem.combos, modem.metadata, top, wait, point);
      SoundParts(geo, coefficients.all, modem.combos, modem.metadata, top, wait);
      visited := visited + {coefficients.offset};
    }

    /** `on_bootstrapping_peer_report`, up to the handing out. */
    method OnBootstrappingPeerReport(point: seq<nat>, reported: real)
      requires Valid() && Inv(Abstract()) && boot && InRange(First(geo.grid), point)
      modifies this`value, this`boot, this`visited, this`uniques, this`redistribute, coefficients, remaining, duplicates
      ensures Valid() && Abstract() == OnBootReport(old(Abstract()), point, reported)
    {
      hide Made, Sound, Canonical, Union, Total, Upto, Points, CodeOf, CentreOk, BootCentre, InRange, OnBootReport, Fresh;
      ghost var s := Abstract();
      BootReportIs(s, point, reported);
      value, boot := reported, false;
      GoToReported(point);
      FirstLevelWork();
      redistribute := false;
    }

    /** One round of the loop over a range: one more place becomes visited. */
    method VisitUnit(r: Range, j: nat, ghost before: set<nat>)
      requires Ready() && CentreOk(geo, Centre()) && Inside(geo, Points(r)) && j < r.size
      requires Visited(geo, Centre(), r, j, before, visited)
      modifies coefficients, this`visited
      ensures Ready() && Centre() == old(Centre()) && Visited(geo, Centre(), r, j + 1, before, visited)
    {
      hide Made, Sound, Canonical, Union, Total, Points, CentreOk, Site, Inside, Visited;
      VisitedStep(geo, Centre(), r, j, before, visited);
      var site := Offset(r.start + j);
      visited := visited + {site};
    }

    method VisitRange(r: Range)
      requires Ready() && CentreOk(geo, Centre()) && Inside(geo, Points(r))
      modifies coefficients, this`visited
      ensures Ready() && Centre() == old(Centre()) && CentreOk(geo, Centre())
      ensures visited == old(visited) + SitesOf(geo, Centre(), Points(r))
    {
      hide Made, Sound, Canonical, Union, Total, Points, CentreOk, SitesOf, Inside, Visited;
      VisitedStart(geo, Centre(), r, visited);
      for j := 0 to r.size
        invariant Ready() && Centre() == old(Centre())
        invariant Visited(geo, Centre(), r, j, old(visited), visited)
      {
        VisitUnit(r, j, old(visited));
      }
      VisitedAll(geo, Centre(), r, old(visited), visited);
    }

    /** The first part of a sync: everything reported since the last one becomes visited. */
    method VisitAccumulated()
      requires Ready() && CentreOk(geo, Centre()) && Inside(geo, accumulated.Contents())
      modifies coefficients, this`visited
      ensures Ready() && Centre() == old(Centre()) && CentreOk(geo, Centre()) && Inside(geo, accumulated.Contents())
      ensures visited == old(visited) + SitesOf(geo, Centre(), accumulated.Contents())
    {
      hide Made, Sound, Canonical, Union, Total, Points, CentreOk, Site, SitesOf;
      SoundCentre(geo, coefficients.all, modem.combos, modem.metadata, top, wait);
      ghost var b := accumulated.ranges;
      UnionNone(b);
      SitesNone(geo, Centre());
      for i := 0 to |accumulated.ranges|
        invariant Ready() && Centre() == old(Centre()) && CentreOk(geo, Centre()) && Inside(geo, Union(b[..i]))
        invariant visited == old(visited) + SitesOf(geo, Centre(), Union(b[..i]))
      {
        UnionMember(b, i);
        UnionTake(b, i);
        UnionSplit(b, i + 1);
        SitesTogether(geo, Centre(), Union(b[..i]), Points(b[i]));
        VisitRange(accumulated.ranges[i]);
      }
      assert b[..|b|] == b;
    }

    /** The maps of the peers have nothing to do with the server's own. */
    ghost predicate Foreign(peers: seq<RangeMap>) {
      Apart(peers) && forall k :: 0 <= k < |peers| ==> peers[k] != remaining && peers[k] != accumulated && peers[k] != duplicates
    }

    /** `assisted` says which peers others have done work for, `idle` that some peer has nothing left of what it was handed
        once these units are taken from its map. Where the server itself has nothing left the maps are not touched. */
    method AbsorbReports(peers: seq<RangeMap>) returns (assisted: seq<bool>, ghost idle: bool)
      requires Valid() && Ok(Abstract()) && Foreign(peers) && forall k :: 0 <= k < |peers| ==> peers[k].Valid()
      modifies coefficients, remaining, accumulated, this`visited, this`redistribute, peers
      ensures Valid() && Abstract() == Search.Absorb(old(Abstract()), idle)
      ensures |assisted| == |peers|
      ensures
        var taken := if remaining.Contents() == {} then {} else old(accumulated.Contents());
        && (idle <==> taken != {} && exists k :: 0 <= k < |peers| && peers[k].Contents() == {})
        && forall k :: 0 <= k < |peers| ==>
             && peers[k].Valid() && peers[k].Contents() == old(peers[k].Contents()) - taken
             && (assisted[k] <==> peers[k].Contents() != old(peers[k].Contents()))
    {
      hide Made, Sound, Canonical, Union, Total, Points, CentreOk, Site, SitesOf, Inside, Search.Absorb, Ok;
      ghost var s := Abstract();
      AbsorbIs(s, false);
      AbsorbIs(s, true);
      EmptyUnion(accumulated.ranges);
      EmptyUnion(remaining.ranges);
      assisted, idle := seq(|peers|, k => false), false;
      if accumulated.ranges != [] {
        OkAccumulated(s);
        VisitAccumulated();
        assisted, idle := TakeReported(peers);
      }
    }

    /** What has been reported leaves the list and, unless the list has run empty, the maps of the peers. */
    method TakeReported(peers: seq<RangeMap>) returns (assisted: seq<bool>, ghost idle: bool)
      requires Valid() && accumulated.Contents() != {} && Foreign(peers) && forall k :: 0 <= k < |peers| ==> peers[k].Valid()
      modifies remaining, accumulated, this`redistribute, peers
      ensures Valid() && accumulated.Contents() == {} && |assisted| == |peers|
      ensures remaining.Contents() == old(remaining.Contents() - accumulated.Contents())
      ensures redistribute == (old(redistribute) || idle || remaining.Contents() == {})
      ensures
        var taken := if remaining.Contents() == {} then {} else old(accumulated.Contents());
        && (idle <==> taken != {} && exists k :: 0 <= k < |peers| && peers[k].Contents() == {})
        && forall k :: 0 <= k < |peers| ==>
             && peers[k].Valid() && peers[k].Contents() == old(peers[k].Contents()) - taken
             && (assisted[k] <==> peers[k].Contents() != old(peers[k].Contents()))
    {
      hide Made, Sound, Canonical, Union;
      EmptyUnion(accumulated.ranges);
      assisted, idle := seq(|peers|, k => false), false;
      var changed := remaining.SubtractAll(accumulated.ranges);
      EmptyUnion(remaining.ranges);
      if remaining.ranges == [] {
        redistribute := true;
      } else {
        var some;
        assisted, some := SubtractFromPeers(peers, accumulated.ranges);
        idle := some;
        redistribute := redistribute || some;
      }
      accumulated.Clear();
    }

    /** `demodulate` and `value_save` for every coefficient: the centre moves. */
    method MoveCentre(c: nat)
      requires Ready() && CentreOk(geo, Centre()) && c < Total(geo)
      modifies coefficients
      ensures Ready() && Centre() == Point(geo, old(Centre()), c) && CentreOk(geo, Centre())
    {
      hide Made, Sound, Canonical, Union, Total, CentreOk, Point;
      PointIsCentreOk(geo, Centre(), c);
      var site := Offset(c);
      ghost var was := coefficients.all;
      coefficients.SaveAll();
      SoundSaved(geo, was, modem.combos, modem.metadata, top, wait, coefficients.all);
    }

    method LayFirstLevel()
      requires Ready() && CentreOk(geo, Centre())
      modifies coefficients, remaining, this`level
      ensures Ready() && Centre() == old(Centre()) && CentreOk(geo, Centre()) && level == 0 < geo.levels
      ensures remaining.Contents() == Fresh(geo, Centre(), visited, 0, Upto(geo, 1))
    {
      hide Made, Sound, Canonical, Union, Total, Points, CentreOk, Fresh, Upto, Table, Metadata, GeoOk, PlacesOk,
           EndedAtRest;
      SoundParts(geo, coefficients.all, modem.combos, modem.metadata, top, wait);
      LevelSizes(geo, 0);
      level := 0;
      remaining.Clear();
      remaining.Add(Range(0, modem.metadata[level].end));
      ReduceFirstLevel();
    }

    /** Moves the centre to the best find and lays out the first level around it. */
    method Recentre()
      requires Valid() && Ok(Abstract()) && best.Some?
      modifies coefficients, remaining, this`best, this`level
      ensures Valid() && Abstract() == Recentred(old(Abstract()))
    {
      hide Made, Sound, Canonical, Union, Total, Points, CentreOk, Point, Fresh, Recentred, Upto;
      RecentredIs(Abstract());
      MoveCentre(best.value);
      best := None;
      LayFirstLevel();
    }

    /** `on_coroutine` up to where it may first yield: reports are absorbed, and after a better find the centre moves and
        the first level is laid out around it. */
    method StartSync(peers: seq<RangeMap>) returns (recentred: bool, assisted: seq<bool>, ghost idle: bool)
      requires Valid() && Inv(Abstract()) && !boot && Foreign(peers) && forall k :: 0 <= k < |peers| ==> peers[k].Valid()
      modifies coefficients, remaining, accumulated, peers
      modifies this`visited, this`redistribute, this`best, this`level
      ensures Ok(old(Abstract())) && Valid() && (recentred <==> old(best).Some?)
      ensures
        var a := Search.Absorb(old(Abstract()), idle);
        && Abstract() == (if recentred then Recentred(a) else a) && Settled(Abstract()) && best.None?
        && (recentred ==> redistribute) && (!recentred ==> redistribute == a.redistribute)
      ensures forall k :: 0 <= k < |peers| ==> peers[k].Valid()
      ensures |assisted| == |peers|
      ensures forall k :: 0 <= k < |peers| ==> (assisted[k] <==> peers[k].Contents() != old(peers[k].Contents()))
    {
      hide Made, Sound, Canonical, Union, Total, Points, CentreOk, Point, Fresh, Recentred, Upto, Search.Absorb, Inside,
           Settled;
      ghost var s := Abstract();
      assisted, idle := AbsorbReports(peers);
      AbsorbSettles(s, idle);
      recentred := best.Some?;
      if recentred {
        ghost var a := Abstract();
        RecentredSettles(a);
        RecentredKeeps(a);
        Recentre();
      }
    }

    /** A peer joins, also between the parts of a sync. */
    method InsertPeer()
      requires Valid()
      modifies this`redistribute
      ensures Valid() && Abstract() == old(Abstract()).(redistribute := true)
    {
      redistribute := true;
    }

    /** The rest of `on_coroutine`: on through the levels, and what is to be sent. */
    method FinishSync(recentred: bool) returns (outcome: Outcome)
      requires Valid() && Settled(Abstract()) && (recentred ==> redistribute)
      modifies coefficients, remaining, duplicates, this`uniques, this`redistribute, this`level
      ensures Ok(old(Abstract())) && Valid()
      ensures Abstract() == (if old(redistribute) then Advance(old(Abstract())) else old(Abstract())).(redistribute := false)
      ensures outcome ==
                if level >= geo.levels then Outcome.Shrink
                else if recentred then Outcome.Recentre
                else if old(redistribute) then Complexities
                else Quiet
      ensures outcome.Quiet? ==> remaining.Contents() == old(remaining.Contents())
    {
      hide Made, Sound, Canonical, Union, Total, Points, CentreOk, Point, Fresh, Upto, Advance, Inside, Covered;
      outcome := if recentred then Outcome.Recentre else if redistribute then Complexities else Quiet;
      if redistribute {
        var some := Redistribute();
        if !some { outcome := Shrink; }
      }
      redistribute := false;
    }

    /** The whole of `on_coroutine` when nothing comes in between. */
    method OnSync(peers: seq<RangeMap>) returns (outcome: Outcome, assisted: seq<bool>, ghost idle: bool)
      requires Valid() && Inv(Abstract()) && !boot && Foreign(peers) && forall k :: 0 <= k < |peers| ==> peers[k].Valid()
      modifies coefficients, remaining, accumulated, duplicates, peers
      modifies this`visited, this`uniques, this`redistribute, this`best, this`level
      ensures Valid() && Abstract() == Sync(old(Abstract()), idle).(redistribute := false)
      ensures Ok(old(Abstract())) && outcome ==
                if level >= geo.levels then Outcome.Shrink
                else if old(best).Some? then Outcome.Recentre
                else if Search.Absorb(old(Abstract()), idle).redistribute then Complexities
                else Quiet
    {
      hide Made, Sound, Canonical, Union, Total, Points, CentreOk, Point, Fresh, Recentred, Upto, Search.Absorb,
           Advance, Inside, Settled, Inv;
      var recentred;
      recentred, assisted, idle := StartSync(peers);
      outcome := FinishSync(recentred);
    }

    /** The shrink, once the ranges are known: the resolutions are chosen, offsets and table rebuilt, nothing is remembered,
        and the server bootstraps again. A mix of resolutions whose first level does not fit leaves no level at all, though
        each zoom level alone had one; `false` stands for what the source then does, which is to read the first level. */
    method Restart(stages: seq<Stage>, slowdowns: array<real>, ended: seq<bool>, ghost box: seq<Box>, ranges: seq<real>,
                   largish: real)
      returns (ok: bool)
      requires Valid() && remaining.Contents() == {} && accumulated.Contents() == {} && best.None? && !redistribute
      requires |ranges| == |box| == |ended| == |coefficients.all| == slowdowns.Length && StagesOk(stages, |coefficients.all|)
      requires forall c :: 0 <= c < |ranges| ==> box[c].range == ranges[c]
      modifies this, coefficients, modem, remaining, slowdowns
      ensures Sized(stages, |ranges|) && |old(geo).grid| == |ranges|
      ensures forall c :: 0 <= c < |ranges| ==> ChosenList(stages, c, ranges[c], old(geo).grid[c]) != []
      ensures
        var grid := Refined(stages, ranges, old(geo).grid, old(intended));
        && intended == Intended(stages, ranges, old(intended)) && geo.grid == grid && GridOk(grid, 1)
        && (ok <==> End(grid, 1) <= limit)
        && (ok ==> Valid() && GeoOk(geo) && 1 <= geo.levels && Abstract() == Shrunk(Abstract(), geo, largish))
        && (!ok ==> modem.metadata == [])
      ensures geo.grid == GridOf(coefficients.all) && geo.ended == ended && geo.box == box && Ample(geo.grid, intended)
      ensures wait == Free(ended)
      ensures forall c :: 0 <= c < |ranges| ==> slowdowns[c] == ChosenSlowdown(stages, c, ranges[c], old(slowdowns[c]))
    {
      hide Table, Metadata, End, Points, Union, Canonical, Sound, PlacesOk, Ample, ChosenList, ChosenSlowdown, Intended,
           Refined, GeoOk, Shrunk;
      ReadyParts();
      ghost var was := GridOf(coefficients.all);
      assert |coefficients.all| == |was|;
      boot, value, visited, level := true, largish, {}, 0;
      ChooseGrid(stages, slowdowns, ended, ranges);
      ok := StartOver(ended, box);
    }

    /** Over the new lists: the table, and the first level to be done. */
    method StartOver(ended: seq<bool>, ghost box: seq<Box>) returns (ok: bool)
      requires remaining != accumulated && remaining != duplicates && accumulated != duplicates
      requires remaining.Valid() && accumulated.Valid() && remaining.Contents() == accumulated.Contents() == {}
      requires duplicates.ranges == [] && uniques == {} && limit > 0 && Ample(GridOf(coefficients.all), intended)
      requires |box| == |ended| == |coefficients.all| < top && ended == Ended(coefficients.all) && PlacesOk(coefficients.all)
      requires forall c :: 0 <= c < |coefficients.all| ==> coefficients.all[c].now == coefficients.all[c].tmp == 0
      requires boot && visited == {} && level == 0 && best.None? && !redistribute
      modifies modem, remaining, this`wait, this`geo
      ensures geo.grid == GridOf(coefficients.all) && geo.ended == ended && geo.box == box && wait == Free(ended)
      ensures GridOk(geo.grid, 1) && (ok <==> End(geo.grid, 1) <= limit) && (!ok ==> modem.metadata == [])
      ensures ok ==> Valid() && GeoOk(geo) && 1 <= geo.levels && Abstract() == Shrunk(Abstract(), geo, value)
    {
      hide Table, Metadata, End, Points, Union, Canonical, CentreOk, Built, Ample, Sound, FineGrid, PlacesOk, Free, Shrunk;
      Rebuild(ended, box);
      MadeFine(geo, limit, intended);
      NoLevel(geo.grid);
      ok := modem.metadata != [];
      if ok {
        LayOut();
      }
    }

    /** The table over the new lists. */
    method Rebuild(ended: seq<bool>, ghost box: seq<Box>)
      requires limit > 0 && Ample(GridOf(coefficients.all), intended)
      modifies modem, this`wait, this`geo
      ensures wait == Free(ended) && geo.grid == GridOf(coefficients.all) && geo.ended == ended && geo.box == box
      ensures Made(geo, limit, intended)
      ensures modem.combos == Table(geo.grid, geo.levels) && modem.metadata == Metadata(geo.grid, geo.levels)
    {
      hide Table, Metadata, Built;
      wait := Free(ended);
      var size, levels, past := modem.Build(GridOf(coefficients.all), limit, intended);
      geo := Geometry(GridOf(coefficients.all), levels, ended, box);
      MadeFine(geo, limit, intended);
    }

    /** The first level of a fresh table. */
    method LayOut()
      requires remaining != accumulated && remaining != duplicates && accumulated != duplicates
      requires remaining.Valid() && accumulated.Valid() && remaining.Contents() == accumulated.Contents() == {}
      requires duplicates.ranges == [] && uniques == {}
      requires Made(geo, limit, intended) && GeoOk(geo) && 1 <= geo.levels && wait == Free(geo.ended)
      requires geo.grid == GridOf(coefficients.all) && geo.ended == Ended(coefficients.all) && PlacesOk(coefficients.all)
      requires forall c :: 0 <= c < |coefficients.all| ==> coefficients.all[c].now == coefficients.all[c].tmp == 0
      requires modem.combos == Table(geo.grid, geo.levels) && modem.metadata == Metadata(geo.grid, geo.levels)
      requires |coefficients.all| < top && boot && visited == {} && level == 0 && best.None? && !redistribute
      modifies remaining
      ensures Valid() && Abstract() == Shrunk(Abstract(), geo, value)
    {
      hide Table, Metadata, End, Points, Union, Canonical, CentreOk, Built, Made, Sound, FineGrid, PlacesOk, Free, LevelSize;
      FreshSound(geo, coefficients.all, modem.combos, modem.metadata, top);
      SoundParts(geo, coefficients.all, modem.combos, modem.metadata, top, Free(geo.ended));
      LevelSizes(geo, 0);
      remaining.Add(Range(0, modem.metadata[0].end));
    }

    lemma ReadyParts()
      requires Ready()
      ensures limit > 0 && geo.grid == GridOf(coefficients.all) && |coefficients.all| < top && Ample(geo.grid, intended)
    {
      hide Ample, Sound, Built, CentreOk, GeoOk, PlacesOk, EndedAtRest, Canonical, Table, Metadata, Upto, FineGrid;
      SoundParts(geo, coefficients.all, modem.combos, modem.metadata, top, wait);
      SomeRoom(geo, limit, intended);
    }

    lemma WaitIs()
      requires Ready()
      ensures wait == Free(geo.ended)
    {
    }

    /** The resolutions of all coefficients after a shrink, in place. */
    method ChooseGrid(stages: seq<Stage>, slowdowns: array<real>, ended: seq<bool>, ranges: seq<real>)
      requires |ranges| == |ended| == |coefficients.all| == slowdowns.Length && StagesOk(stages, |coefficients.all|)
      requires Ample(GridOf(coefficients.all), intended)
      modifies coefficients, slowdowns, this`intended
      ensures Sized(stages, |ranges|) && |old(coefficients.all)| == |ranges| && Ended(coefficients.all) == ended
      ensures PlacesOk(coefficients.all) && Ample(GridOf(coefficients.all), intended)
      ensures forall c :: 0 <= c < |coefficients.all| ==> coefficients.all[c].now == coefficients.all[c].tmp == 0
      ensures
        var lists := GridOf(old(coefficients.all));
        && (forall c :: 0 <= c < |lists| ==> ChosenList(stages, c, ranges[c], lists[c]) != [])
        && GridOf(coefficients.all) == Refined(stages, ranges, lists, old(intended))
        && intended == Intended(stages, ranges, old(intended))
      ensures forall c :: 0 <= c < |ranges| ==> slowdowns[c] == ChosenSlowdown(stages, c, ranges[c], old(slowdowns[c]))
    {
      hide PlacesOk, ChosenList, Intended, ChosenSlowdown, Fine;
      ghost var lists := GridOf(coefficients.all);
      RefinedFine(stages, ranges, lists, intended);
      ghost var grid := Refined(stages, ranges, lists, intended);
      coefficients.MarkEnded(ended);
      intended := coefficients.ChooseResolutions(stages, ranges, slowdowns, intended);
      coefficients.PostShrink(intended);
      assert GridOf(coefficients.all) == grid;
    }

    /** `on_peer_report`: a better find is noted, the reported ranges leave the peer's map and wait for the next sync. */
    method OnPeerReport(reported: real, find: Option<nat>, units: seq<Range>, peer: RangeMap) returns (ghost idle: bool)
      requires Valid() && Inv(Abstract()) && !boot && peer.Valid()
      requires peer != remaining && peer != accumulated && peer != duplicates
      requires forall k :: 0 <= k < |units| ==> units[k].size > 0
      modifies this`value, this`best, this`redistribute, accumulated, peer
      ensures Valid() && peer.Valid() && peer.Contents() == old(peer.Contents()) - Union(units)
      ensures idle <==> units != [] && exists k :: 0 < k <= |units| && old(peer.Contents()) - Union(units[..k]) == {}
      ensures Abstract() == Search.OnPeerReport(old(Abstract()), reported, find, Union(units), idle)
    {
      hide Made, Sound, Canonical, Union, Points, Inv;
      if find.Some? && reported < value {
        value, best, redistribute := reported, find, true;
      }
      ghost var before, v, b := redistribute, value, best;
      UnionNone(units);
      idle := false;
      for i := 0 to |units|
        invariant Valid() && peer.Valid() && value == v && best == b
        invariant peer.Contents() == old(peer.Contents()) - Union(units[..i])
        invariant accumulated.Contents() == old(accumulated.Contents()) + Union(units[..i])
        invariant redistribute == (before || idle)
        invariant idle <==> exists k :: 0 < k <= i && old(peer.Contents()) - Union(units[..k]) == {}
      {
        UnionTake(units, i);
        peer.Subtract(units[i]);
        EmptyUnion(peer.ranges);
        if peer.ranges == [] {
          redistribute, idle := true, true;
        }
        accumulated.Add(units[i]);
      }
      assert units[..|units|] == units;
    }
  }

  lemma RangeGrows(start: nat, n: nat)
    ensures Points(Range(start, n + 1)) == Points(Range(start, n)) + {start + n}
    ensures Points(Range(start, 0)) == {}
  {
    assert forall x :: Within(x, Range(start, n + 1)) <==> Within(x, Range(start, n)) || x == start + n;
    assert forall x :: !Within(x, Range(start, 0));
  }

  lemma RangeInside(g: Geometry, r: Range, n: nat)
    requires GeoOk(g) && Inside(g, Points(r)) && n <= r.size
    ensures Inside(g, Points(Range(r.start, n))) && (n < r.size ==> r.start + n < Total(g))
  {
    hide Total, FineGrid;
    assert forall x :: Within(x, Range(r.start, n)) ==> Within(x, r);
    assert n < r.size ==> Within(r.start + n, r);
  }

  /** The places of the first units of a range have become visited. */
  ghost predicate Visited(g: Geometry, centre: seq<nat>, r: Range, j: nat, before: set<nat>, visited: set<nat>)
    requires CentreOk(g, centre)
  {
    && Inside(g, Points(Range(r.start, j)))
    && visited == before + SitesOf(g, centre, Points(Range(r.start, j)))
  }

  lemma VisitedStart(g: Geometry, centre: seq<nat>, r: Range, visited: set<nat>)
    requires CentreOk(g, centre) && Inside(g, Points(r))
    ensures Visited(g, centre, r, 0, visited, visited)
  {
    hide Total, Points, Site, FineGrid;
    RangeGrows(r.start, 0);
    SitesNone(g, centre);
  }

  lemma VisitedStep(g: Geometry, centre: seq<nat>, r: Range, j: nat, before: set<nat>, visited: set<nat>)
    requires CentreOk(g, centre) && Inside(g, Points(r)) && j < r.size && Visited(g, centre, r, j, before, visited)
    ensures r.start + j < Total(g)
    ensures Visited(g, centre, r, j + 1, before, visited + {Site(g, centre, r.start + j)})
  {
    hide Total, Points, Site, FineGrid, SitesOf, InRange;
    RangeInside(g, r, j);
    RangeInside(g, r, j + 1);
    RangeGrows(r.start, j);
    SitesTogether(g, centre, Points(Range(r.start, j)), {r.start + j});
    SitesOne(g, centre, r.start + j);
  }

  lemma VisitedAll(g: Geometry, centre: seq<nat>, r: Range, before: set<nat>, visited: set<nat>)
    requires CentreOk(g, centre) && Visited(g, centre, r, r.size, before, visited)
    ensures Inside(g, Points(r)) && visited == before + SitesOf(g, centre, Points(r))
  {
    assert Range(r.start, r.size) == r;
  }

  lemma AbsorbIs(s: State, idle: bool)
    requires Ok(s)
    ensures s.accumulated == {} ==> Search.Absorb(s, idle) == s
    ensures s.accumulated != {} ==>
              Search.Absorb(s, idle) == s.(visited := s.visited + SitesOf(s.geo, s.centre, s.accumulated),
                remaining := s.remaining - s.accumulated, accumulated := {},
                redistribute := s.redistribute || idle || s.remaining - s.accumulated == {})
  {
  }

  lemma NoLevel(grid: Grid)
    ensures Metadata(grid, 0) == []
  {
  }

  lemma OkAccumulated(s: State)
    requires Ok(s)
    ensures CentreOk(s.geo, s.centre) && Inside(s.geo, s.accumulated)
  {
  }

  lemma RecentredKeeps(s: State)
    requires Ok(s) && s.best.Some?
    ensures Recentred(s).redistribute == s.redistribute
  {
  }

  /** The working point becomes the centre. */
  lemma SoundSaved(geo: Geometry, was: seq<Coefficient>, combos: seq<Combo>, metadata: seq<Level>, top: nat, wait: nat,
                   now: seq<Coefficient>)
    requires Sound(geo, was, combos, metadata, top, wait) && CentreOk(geo, Tmp(was)) && |now| == |was|
    requires forall c :: 0 <= c < |was| ==> now[c] == was[c].(now := was[c].tmp)
    ensures Sound(geo, now, combos, metadata, top, wait) && Now(now) == Tmp(was)
  {
    hide FineGrid, Table, Metadata, Free;
    assert GridOf(now) == GridOf(was) && Ended(now) == Ended(was) && Now(now) == Tmp(was);
  }

  lemma RecentredIs(s: State)
    requires Ok(s) && s.best.Some?
    ensures var centre := Point(s.geo, s.centre, s.best.value);
            CentreOk(s.geo, centre)
            && Recentred(s) == s.(centre := centre, best := None, level := 0,
                                  remaining := Fresh(s.geo, centre, s.visited, 0, Upto(s.geo, 1)))
  {
    hide FineGrid, Total, Upto, Site, Point;
    PointIsCentreOk(s.geo, s.centre, s.best.value);
  }

  lemma ScanLeft(work: set<nat>, dups: set<nat>, firsts: set<nat>, left: set<nat>)
    requires work - dups == firsts && left <= work
    ensures left - dups == left - (work - firsts)
  {
  }

  lemma BootReportIs(s: State, point: seq<nat>, value: real)
    requires Inv(s) && s.boot && InRange(First(s.geo.grid), point)
    ensures s.visited == {} && s.remaining == Points(Range(0, Upto(s.geo, 1))) && |s.centre| == |point| == |s.geo.grid|
    ensures CentreOk(s.geo, BootCentre(s.geo, s.centre, point))
    ensures
      var centre := BootCentre(s.geo, s.centre, point);
      && var visited := {CodeOf(s.geo, centre)};
      && OnBootReport(s, point, value)
         == s.(centre := centre, visited := visited, remaining := Fresh(s.geo, centre, visited, 0, Upto(s.geo, 1)),
               boot := false, value := value, redistribute := false)
  {
    hide FineGrid, Total, Upto, Points, Site, CodeOf;
    BootCentreOk(s.geo, s.centre, point);
  }

  lemma UnionNone(s: seq<Range>)
    ensures Union(s[..0]) == {}
  {
  }

  /** The reported point becomes the centre. */
  lemma SoundBooted(geo: Geometry, was: seq<Coefficient>, combos: seq<Combo>, metadata: seq<Level>, top: nat, wait: nat,
                    point: seq<nat>)
    requires Sound(geo, was, combos, metadata, top, wait) && |point| == |was| && InRange(First(geo.grid), point)
    ensures
      var now := Booted(was, point);
      && Sound(geo, now, combos, metadata, top, wait) && Now(now) == BootCentre(geo, Now(was), point)
      && Code(First(GridOf(now)), Tmp(now)) == CodeOf(geo, Now(now))
  {
    hide FineGrid, Table, Metadata, Free;
    BootedPlaces(was, point);
    BootCentreOk(geo, Now(was), point);
    var now := Booted(was, point);
    assert Now(now) == BootCentre(geo, Now(was), point) && Ended(now) == Ended(was);
    assert Tmp(now) == Now(now);
  }

  lemma InsidePoints(g: Geometry, lo: nat, hi: nat, work: set<nat>)
    requires GeoOk(g) && lo <= hi <= Total(g) && work == Points(Range(lo, hi - lo))
    ensures Inside(g, work) && forall c :: c in work <==> lo <= c && c < hi
  {
    hide Total, FineGrid;
    assert forall c :: c in work <==> Within(c, Range(lo, hi - lo));
  }

  lemma FreshInside(g: Geometry, centre: seq<nat>, visited: set<nat>, lo: nat, hi: nat)
    requires CentreOk(g, centre) && hi <= Total(g)
    ensures Inside(g, Fresh(g, centre, visited, lo, hi))
  {
    hide Site, CentreOk, Total;
  }

  lemma LevelInside(g: Geometry, centre: seq<nat>, visited: set<nat>, l: nat)
    requires CentreOk(g, centre) && l < g.levels
    ensures Inside(g, LevelWork(g, centre, visited, l))
  {
    hide Site, FineGrid, InRange, Total;
  }

  lemma AdvanceStep(s: State)
    requires Ok(s)
    ensures s.remaining != {} ==> Advance(s) == s
    ensures s.remaining == {} && s.level + 1 == s.geo.levels ==> Advance(s) == s.(level := s.level + 1)
    ensures s.level < s.geo.levels
    ensures s.remaining == {} && s.level + 1 < s.geo.levels ==> Ok(NextLevel(s)) && Advance(s) == Advance(NextLevel(s))
  {
    hide Site, FineGrid, InRange, Total, LevelWork;
    if s.level + 1 < s.geo.levels { LevelInside(s.geo, s.centre, s.visited, s.level + 1); }
  }

  lemma ScanNothing(g: Geometry, centre: seq<nat>, work: set<nat>)
    requires CentreOk(g, centre) && Inside(g, work)
    ensures Scanned(g, centre, work, 0, {}, {})
  {
  }

  /** Between two neighbouring ranges of a canonical map there is nothing. */
  lemma RangeGap(s: seq<Range>, i: nat)
    requires Canonical(s) && i < |s|
    ensures var lo := if i == 0 then 0 else s[i - 1].End();
            lo <= s[i].start && forall c :: c in Union(s) ==> c < lo || s[i].start <= c
  {
    hide Union;
    Separated(s, i, if i == 0 then 0 else s[i - 1].End(), s[i].start);
  }

  lemma RangeLast(s: seq<Range>)
    requires Canonical(s)
    ensures forall c :: c in Union(s) ==> c < if s == [] then 0 else s[|s| - 1].End()
  {
    if s != [] { UnionBelow(s, s[|s| - 1].End()); }
  }
}
