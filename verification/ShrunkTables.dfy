/** A whole shrink: the ranges come down, the zoom levels choose the lists, and the server starts over on the smaller table. */
module ShrunkTables {
  import opened Combos
  import opened Coefficients
  import opened Zooming
  import opened Sites
  import opened Search
  import Ranges
  import opened Protocol
  import opened TaskProcessor
  import opened Reals
  import S = Shrink

  function RangesOf(all: seq<S.Zoom>): (r: seq<real>)
    ensures |r| == |all| && forall c :: 0 <= c < |all| ==> r[c] == all[c].range
  {
    seq(|all|, c requires 0 <= c < |all| => all[c].range)
  }

  function EndedOf(all: seq<S.Zoom>): (r: seq<bool>)
    ensures |r| == |all| && forall c :: 0 <= c < |all| ==> r[c] == all[c].ended
  {
    seq(|all|, c requires 0 <= c < |all| => all[c].ended)
  }

  function BoxesOf(all: seq<S.Zoom>): (r: seq<Box>)
    ensures |r| == |all| && forall c :: 0 <= c < |all| ==> r[c] == Box(all[c].from, all[c].range, 0.0)
  {
    seq(|all|, c requires 0 <= c < |all| => Box(all[c].from, all[c].range, 0.0))
  }

  /** The ranges are those of this table, around this centre. */
  ghost predicate InPlace(all: seq<S.Zoom>, g: Geometry, centre: seq<nat>) {
    && |g.grid| == |centre| == |all| && g.ended == EndedOf(all) && g.box == BoxesOf(all)
    && forall c :: 0 <= c < |all| ==>
         S.ZoomOk(all[c]) && g.grid[c] != [] && all[c].res == g.grid[c][0] && all[c].index == centre[c]
  }

  /** What a shrink makes of a table. */
  ghost predicate ShrinksInto(all: seq<S.Zoom>, g: Geometry, stages: seq<Stage>, intended: nat, least: real, next: Geometry) {
    && (forall c :: 0 <= c < |all| ==> S.ZoomOk(all[c])) && S.IsLeast(all, |all|, least) && |g.grid| == |all|
    && Sized(stages, |all|)
    && var t := S.Shrunk(all, least);
    && (forall c :: 0 <= c < |all| ==> ChosenList(stages, c, t[c].range, g.grid[c]) != [])
    && next.grid == Refined(stages, RangesOf(t), g.grid, intended) && next.ended == EndedOf(t) && next.box == BoxesOf(t)
  }

  /** Zoom levels slow down, but never stop, the shrinking. */
  ghost predicate SlowOk(stages: seq<Stage>) {
    forall k, c :: 0 <= k < |stages| && 0 <= c < |stages[k].coeffs| ==> 0.0 <= stages[k].coeffs[c].slowdown < 1.0
  }

  /** The table a shrink leaves is no wider than the one before. */
  lemma IntoNarrower(all: seq<S.Zoom>, m: real, g: Geometry, centre: seq<nat>, stages: seq<Stage>, intended: nat, least: real,
                     next: Geometry)
    requires S.InStep(all, m) && InPlace(all, g, centre) && ShrinksInto(all, g, stages, intended, least, next)
    ensures Narrower(g, next) && (least < 1.0 && S.Some(all) ==> !AllEnded(next))
  {
    hide S.ZoomOk, S.IsLeast, S.Shrunk, Refined, ChosenList, S.InStep;
    BoxesNarrower(all, m, least);
    if least < 1.0 && S.Some(all) {
      var i :| 0 <= i < |all| && !all[i].ended;
      assert !next.ended[i];
    }
  }

  lemma BoxesNarrower(all: seq<S.Zoom>, m: real, least: real)
    requires S.InStep(all, m) && (forall c :: 0 <= c < |all| ==> S.ZoomOk(all[c])) && S.IsLeast(all, |all|, least)
    ensures
      var t := S.Shrunk(all, least);
      forall c :: 0 <= c < |all| ==>
        && (all[c].ended ==> t[c].ended) && (!all[c].ended && least < 1.0 ==> !t[c].ended)
        && all[c].from <= t[c].from && t[c].from + t[c].range <= all[c].from + all[c].range
  {
    hide S.ZoomOk, S.Prepare, S.Centre, S.GridStep, S.Execute, S.IsLeast, S.Shrunk, S.AtRatio;
    S.ShrinkInStep(all, m, least);
  }

  /** The coefficients as the next box begins. */
  ghost predicate Restarted(t: seq<S.Zoom>, grid: Grid, slow: seq<real>, next: seq<S.Zoom>) {
    && |t| == |grid| == |slow| == |next|
    && forall c :: 0 <= c < |t| ==> grid[c] != [] && next[c] == t[c].(index := 0, res := grid[c][0], slowdown := slow[c])
  }

  /** They are in step again. */
  lemma RestartsInStep(all: seq<S.Zoom>, m: real, least: real, grid: Grid, slow: seq<real>, next: seq<S.Zoom>)
    requires S.InStep(all, m) && S.IsLeast(all, |all|, least) && Restarted(S.Shrunk(all, least), grid, slow, next)
    requires forall c :: 0 <= c < |all| ==> Fine(grid[c]) && 0.0 <= slow[c] < 1.0
    ensures S.Next(all, next, least) && S.InStep(next, least)
    ensures RangesOf(next) == RangesOf(S.Shrunk(all, least)) && EndedOf(next) == EndedOf(S.Shrunk(all, least))
    ensures BoxesOf(next) == BoxesOf(S.Shrunk(all, least))
  {
    hide S.Prepare, S.Centre, S.GridStep, S.Execute;
    S.ShrinkInStep(all, m, least);
    var t := S.Shrunk(all, least);
    forall c | 0 <= c < |next| ensures S.ZoomOk(next[c]) && S.SameBox(t[c], next[c]) {
      assert S.ZoomOk(t[c]);
    }
    S.NextInStep(all, next, m, least);
  }

  /** What the zoom levels say of slowdowns stays a slowdown. */
  lemma ChosenSlow(stages: seq<Stage>, c: nat, range: real, slow: real)
    requires SlowOk(stages) && 0.0 <= slow < 1.0 && forall i :: 0 <= i < |stages| ==> c < |stages[i].coeffs|
    ensures 0.0 <= ChosenSlowdown(stages, c, range, slow) < 1.0
  {
  }

  /** After the restart the ranges stand as the new table and its centre, index zero, say. */
  lemma RestartInPlace(next: seq<S.Zoom>, t: seq<S.Zoom>, g: Geometry, centre: seq<nat>, slow: seq<real>)
    requires Restarted(t, g.grid, slow, next) && centre == Zeros(|g.grid|)
    requires g.ended == EndedOf(next) && g.box == BoxesOf(next) && forall c :: 0 <= c < |next| ==> S.ZoomOk(next[c])
    ensures InPlace(next, g, centre)
  {
    hide S.ZoomOk;
  }

  /** The new indices, resolutions and slowdowns. */
  method NextBox(all: seq<Coefficient>, slowdowns: array<real>, a: array<S.Zoom>)
    requires |all| == a.Length == slowdowns.Length && forall c :: 0 <= c < |all| ==> all[c].resolutions != []
    modifies a
    ensures Restarted(old(a[..]), GridOf(all), slowdowns[..], a[..])
  {
    for c := 0 to a.Length
      invariant forall k :: 0 <= k < a.Length ==>
                  a[k] == if k < c then old(a[k]).(index := 0, res := all[k].resolutions[0], slowdown := slowdowns[k])
                          else old(a[k])
    {
      a[c] := a[c].(index := 0, res := all[c].resolutions[0], slowdown := slowdowns[c]);
    }
  }

  datatype Ending = Finished | NoLevel | Again

  /** What follows the two loops, while some range has not ended. */
  method StartAgain(p: TaskProcessor, a: array<S.Zoom>, stages: seq<Stage>, slowdowns: array<real>, largish: real,
                    ghost was: seq<S.Zoom>, ghost m: real, ghost least: real)
    returns (ok: bool)
    requires p.Valid() && p.remaining.Contents() == {} && p.accumulated.Contents() == {} && p.best.None? && !p.redistribute
    requires S.InStep(was, m) && S.IsLeast(was, |was|, least) && a[..] == S.Shrunk(was, least) && |p.geo.grid| == |was|
    requires |p.coefficients.all| == a.Length == slowdowns.Length && StagesOk(stages, a.Length) && SlowOk(stages)
    requires forall c :: 0 <= c < a.Length ==> slowdowns[c] == was[c].slowdown
    modifies p, p.coefficients, p.modem, p.remaining, a, slowdowns
    ensures ShrinksInto(was, old(p.geo), stages, old(p.intended), least, p.geo)
    ensures p.intended == Intended(stages, RangesOf(a[..]), old(p.intended))
    ensures S.Next(was, a[..], least) && S.InStep(a[..], least)
    ensures GridOk(p.geo.grid, 1) && (ok <==> End(p.geo.grid, 1) <= p.limit)
    ensures ok ==> p.Valid() && p.Abstract() == Shrunk(p.Abstract(), p.geo, largish) && InPlace(a[..], p.geo, p.Centre())
    ensures p.wait == S.Free(a[..]) && forall c :: 0 <= c < a.Length ==> slowdowns[c] == a[c].slowdown
  {
    hide S.ZoomOk, S.Prepare, S.Execute, S.Shrunk, S.Free, S.InStep, S.IsLeast, S.Next, Made, Sound, Refined,
         ChosenList, Intended, InPlace, Ranges.Canonical, Ranges.Union, SlowOk, StagesOk, Restarted, ShrinksInto, GeoOk,
         Search.Shrunk, ChosenSlowdown, End;
    var t := a[..];
    ok := Relist(p, t, stages, slowdowns, largish, was, m, least);
    NextBox(p.coefficients.all, slowdowns, a);
    RestartsInStep(was, m, least, p.geo.grid, slowdowns[..], a[..]);
    FreeSame(a[..]);
    SlowSame(t, p.geo.grid, slowdowns[..], a[..]);
    if ok {
      InStepOk(a[..], least);
      FreshCentre(p.Abstract(), p.geo, largish);
      RestartInPlace(a[..], t, p.geo, p.Centre(), slowdowns[..]);
    }
  }

  /** The new lists and the table over them. */
  method Relist(p: TaskProcessor, t: seq<S.Zoom>, stages: seq<Stage>, slowdowns: array<real>, largish: real,
                ghost was: seq<S.Zoom>, ghost m: real, ghost least: real)
    returns (ok: bool)
    requires p.Valid() && p.remaining.Contents() == {} && p.accumulated.Contents() == {} && p.best.None? && !p.redistribute
    requires S.InStep(was, m) && S.IsLeast(was, |was|, least) && t == S.Shrunk(was, least) && |p.geo.grid| == |was|
    requires |p.coefficients.all| == |t| == slowdowns.Length && StagesOk(stages, |t|) && SlowOk(stages)
    requires forall c :: 0 <= c < |t| ==> slowdowns[c] == was[c].slowdown
    modifies p, p.coefficients, p.modem, p.remaining, slowdowns
    ensures ShrinksInto(was, old(p.geo), stages, old(p.intended), least, p.geo)
    ensures p.geo.grid == GridOf(p.coefficients.all) && p.geo.ended == EndedOf(t) && p.geo.box == BoxesOf(t)
    ensures p.intended == Intended(stages, RangesOf(t), old(p.intended)) && p.wait == Free(EndedOf(t))
    ensures |p.geo.grid| == |t| && forall c :: 0 <= c < |t| ==>
              Fine(p.geo.grid[c]) && p.coefficients.all[c].resolutions != [] && 0.0 <= slowdowns[c] < 1.0
    ensures GridOk(p.geo.grid, 1) && (ok <==> End(p.geo.grid, 1) <= p.limit)
    ensures ok ==> p.Valid() && GeoOk(p.geo) && 1 <= p.geo.levels && p.Abstract() == Shrunk(p.Abstract(), p.geo, largish)
  {
    hide S.ZoomOk, S.Prepare, S.Execute, S.Shrunk, Made, Sound, Refined, ChosenList, Intended, InPlace, Ranges.Canonical,
         Ranges.Union, SlowOk, StagesOk, Ample, ShrinksInto, GeoOk, Search.Shrunk, ChosenSlowdown, End, Fine;
    ghost var from, intended := p.geo, p.intended;
    ok := p.Restart(stages, slowdowns, EndedOf(t), BoxesOf(t), RangesOf(t), largish);
    IntoIs(was, from, stages, intended, least, t, p.geo);
    AmpleLists(p.geo.grid, p.intended);
    assert forall c :: 0 <= c < |t| ==> p.coefficients.all[c].resolutions == p.geo.grid[c];
    SlowAgain(was, m, stages, t, slowdowns[..]);
  }

  lemma IntoIs(was: seq<S.Zoom>, g: Geometry, stages: seq<Stage>, intended: nat, least: real, t: seq<S.Zoom>, next: Geometry)
    requires (forall c :: 0 <= c < |was| ==> S.ZoomOk(was[c])) && S.IsLeast(was, |was|, least) && t == S.Shrunk(was, least)
    requires |g.grid| == |was| && Sized(stages, |was|)
    requires forall c :: 0 <= c < |was| ==> ChosenList(stages, c, RangesOf(t)[c], g.grid[c]) != []
    requires next.grid == Refined(stages, RangesOf(t), g.grid, intended) && next.ended == EndedOf(t) && next.box == BoxesOf(t)
    ensures ShrinksInto(was, g, stages, intended, least, next)
  {
    hide S.ZoomOk, S.Shrunk, Refined, ChosenList, S.IsLeast;
  }

  lemma SlowSame(t: seq<S.Zoom>, grid: Grid, slow: seq<real>, next: seq<S.Zoom>)
    requires Restarted(t, grid, slow, next)
    ensures |next| == |slow| && forall c :: 0 <= c < |next| ==> slow[c] == next[c].slowdown
  {
  }

  /** Both count the ranges that have not ended. */
  lemma {:induction false} FreeSame(all: seq<S.Zoom>)
    ensures S.Free(all) == Free(EndedOf(all))
  {
    if all != [] {
      FreeSame(all[..|all| - 1]);
      assert EndedOf(all)[..|all| - 1] == EndedOf(all[..|all| - 1]);
    }
  }

  lemma AmpleLists(grid: Grid, intended: nat)
    requires Ample(grid, intended)
    ensures forall c :: 0 <= c < |grid| ==> Fine(grid[c]) && grid[c] != []
  {
  }

  lemma SlowAgain(was: seq<S.Zoom>, m: real, stages: seq<Stage>, t: seq<S.Zoom>, slow: seq<real>)
    requires S.InStep(was, m) && SlowOk(stages) && Sized(stages, |was|) && |slow| == |t| == |was|
    requires forall c :: 0 <= c < |slow| ==> slow[c] == ChosenSlowdown(stages, c, t[c].range, was[c].slowdown)
    ensures forall c :: 0 <= c < |slow| ==> 0.0 <= slow[c] < 1.0
  {
    hide ChosenSlowdown, SlowOk;
    forall c | 0 <= c < |slow| ensures 0.0 <= slow[c] < 1.0 {
      ChosenSlow(stages, c, t[c].range, was[c].slowdown);
    }
  }

  lemma InStepOk(all: seq<S.Zoom>, m: real)
    requires S.InStep(all, m)
    ensures forall c :: 0 <= c < |all| ==> S.ZoomOk(all[c])
  {
  }

  lemma FreshCentre(s: State, g: Geometry, largish: real)
    requires GeoOk(g) && 1 <= g.levels && s == Search.Shrunk(s, g, largish)
    ensures s.centre == Zeros(|g.grid|)
  {
  }

  /** `on_coroutine` where nothing is left to do around the centre: both shrink loops, the zoom levels, and, unless all ranges
      have ended by now, a fresh start. */
  method OnShrink(p: TaskProcessor, a: array<S.Zoom>, stages: seq<Stage>, slowdowns: array<real>, largish: real,
                  ghost m: real)
    returns (ending: Ending, ghost least: real)
    requires p.Valid() && p.remaining.Contents() == {} && p.accumulated.Contents() == {} && p.best.None? && !p.redistribute
    requires InPlace(a[..], p.geo, p.Centre()) && S.InStep(a[..], m) && S.Some(a[..])
    requires |p.coefficients.all| == a.Length == slowdowns.Length && StagesOk(stages, a.Length) && SlowOk(stages)
    requires forall c :: 0 <= c < a.Length ==> slowdowns[c] == a[c].slowdown
    modifies p, p.coefficients, p.modem, p.remaining, a, slowdowns
    ensures S.IsLeast(old(a[..]), a.Length, least)
    ensures ending.Finished? <==> !S.Some(S.Shrunk(old(a[..]), least))
    ensures !ending.Finished? ==> p.wait == S.Free(a[..]) && forall c :: 0 <= c < a.Length ==> slowdowns[c] == a[c].slowdown
    ensures
      !ending.Finished? ==>
        && ShrinksInto(old(a[..]), old(p.geo), stages, old(p.intended), least, p.geo)
        && p.intended == Intended(stages, RangesOf(a[..]), old(p.intended))
        && S.Next(old(a[..]), a[..], least) && S.InStep(a[..], least)
        && GridOk(p.geo.grid, 1) && (ending.Again? <==> End(p.geo.grid, 1) <= p.limit)
    ensures
      ending.Again? ==> p.Valid() && p.Abstract() == Shrunk(p.Abstract(), p.geo, largish) && InPlace(a[..], p.geo, p.Centre())
  {
    hide S.ZoomOk, S.Prepare, S.Execute, S.Free, S.Shrunk, S.InStep, S.IsLeast, Made, Sound, Refined, ChosenList,
         Intended, InPlace, ShrinksInto, Ranges.Canonical, Ranges.Union, SlowOk, StagesOk, S.Next;
    ghost var was := a[..];
    InPlaceOk(was, p.geo, p.Centre());
    p.WaitIs();
    FreeSame(was);
    var left;
    left, least := S.ShrinkAll(a, p.wait);
    if left == 0 {
      return Finished, least;
    }
    var ok := StartAgain(p, a, stages, slowdowns, largish, was, m, least);
    ending := if ok then Again else NoLevel;
  }

  lemma InPlaceOk(all: seq<S.Zoom>, g: Geometry, centre: seq<nat>)
    requires InPlace(all, g, centre)
    ensures |all| == |g.grid| && g.ended == EndedOf(all) && forall c :: 0 <= c < |all| ==> S.ZoomOk(all[c])
  {
  }

  // ----- A fresh task -----

  /** Nothing has been shrunk yet. */
  ghost predicate Whole(all: seq<S.Zoom>, lists: Grid) {
    && |all| == |lists| > 0
    && forall c :: 0 <= c < |all| ==>
         S.ZoomOk(all[c]) && !all[c].ended && all[c].range == all[c].initial && lists[c] != [] && all[c].res == lists[c][0]
  }

  function Around(all: seq<S.Zoom>, centre: seq<nat>): (r: seq<S.Zoom>)
    requires |centre| == |all|
    ensures |r| == |all| && forall c :: 0 <= c < |all| ==> r[c] == all[c].(index := centre[c])
  {
    seq(|all|, c requires 0 <= c < |all| => all[c].(index := centre[c]))
  }

  lemma WholeInStep(all: seq<S.Zoom>, lists: Grid)
    requires Whole(all, lists)
    ensures S.InStep(all, 0.0) && S.Some(all)
  {
    hide Times;
    forall c | 0 <= c < |all| ensures S.AtRatio(all[c], 0.0) {
      TimesUnit(all[c].initial - all[c].end);
    }
    assert !all[0].ended;
  }

  /** What a coefficient asks for does not depend on where bootstrapping has put it. */
  lemma AsksTheSame(z: S.Zoom, index: nat)
    requires S.ZoomOk(z) && index < z.res
    ensures S.ZoomOk(z.(index := index)) && S.Prepare(z.(index := index)).ratio == S.Prepare(z).ratio
  {
    hide Times, Over;
    S.StepsAround(z);
    S.StepsAround(z.(index := index));
  }

  lemma LeastAround(all: seq<S.Zoom>, centre: seq<nat>, least: real)
    requires |centre| == |all| && forall c :: 0 <= c < |all| ==> S.ZoomOk(all[c]) && centre[c] < all[c].res
    requires S.IsLeast(all, |all|, least)
    ensures (forall c :: 0 <= c < |all| ==> S.ZoomOk(Around(all, centre)[c])) && S.IsLeast(Around(all, centre), |all|, least)
  {
    hide S.Prepare, S.ZoomOk;
    forall c | 0 <= c < |all|
      ensures S.ZoomOk(all[c].(index := centre[c])) && all[c].initial != all[c].end
      ensures S.Prepare(all[c].(index := centre[c])).ratio == S.Prepare(all[c]).ratio
    {
      AsksTheSame(all[c], centre[c]);
      S.ZoomDiffers(all[c]);
    }
    var i := S.LeastOf(all, least);
    assert Around(all, centre)[i] == all[i].(index := centre[i]);
  }

  lemma {:induction false} LeastExists(all: seq<S.Zoom>, n: nat) returns (least: real)
    requires n <= |all| && (forall c :: 0 <= c < |all| ==> S.ZoomOk(all[c])) && exists c :: 0 <= c < n && !all[c].ended
    ensures S.IsLeast(all, n, least)
  {
    hide S.Prepare, S.ZoomOk;
    S.ZoomDiffers(all[n - 1]);
    if exists c :: 0 <= c < n - 1 && !all[c].ended {
      least := LeastExists(all, n - 1);
      if !all[n - 1].ended && S.Prepare(all[n - 1]).ratio < least { least := S.Prepare(all[n - 1]).ratio; }
    } else {
      least := S.Prepare(all[n - 1]).ratio;
    }
  }

  /** For any lists there is a task whose first shrink leaves something to do. */
  lemma SomeTask(lists: Grid) returns (all: seq<S.Zoom>, least: real)
    requires lists != [] && forall c :: 0 <= c < |lists| ==> lists[c] != [] && lists[c][0] >= 2
    ensures Whole(all, lists) && S.IsLeast(all, |all|, least) && least < 1.0
  {
    hide S.Prepare, S.IsLeast;
    var end := 1.0 / (lists[0][0] + 1) as real;
    all := seq(|lists|, c requires 0 <= c < |lists| => S.Zoom(1.0, end, 0.0, 1.0, 0, lists[c][0], 0.0, false));
    assert !all[0].ended;
    least := LeastExists(all, |all|);
    EndsLater(all[0]);
    LeastBelow(all, least, 0);
  }

  lemma LeastBelow(all: seq<S.Zoom>, least: real, c: nat)
    requires (forall k :: 0 <= k < |all| ==> S.ZoomOk(all[k])) && S.IsLeast(all, |all|, least) && c < |all| && !all[c].ended
    ensures all[c].initial != all[c].end && least <= S.Prepare(all[c]).ratio
  {
    hide S.Prepare;
  }

  lemma EndsLater(z: S.Zoom)
    requires S.ZoomOk(z) && z.initial == z.range == 1.0 && z.slowdown == 0.0 && z.end == S.GridStep(1.0, z.res)
    ensures S.Prepare(z).ratio < 1.0
  {
    hide Times, Over, S.GridStep, S.Prepare;
    S.BlockFacts(z);
    TimesComm(S.Prepare(z).totalDiff, 0.0);
    TimesUnit(S.Prepare(z).totalDiff);
    TimesUnit(1.0 - z.end);
    TimesCancel(S.Prepare(z).ratio, 1.0, 1.0 - z.end);
  }
}
