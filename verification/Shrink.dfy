/** The shrink of the search box over exact reals: all coefficients that have not ended keep in step, and they end
    together after boundedly many shrinks, or never. */
module Shrink {
  import opened Reals

  /** One coefficient: the whole range, the range at which it ends, the box now, the grid index of the centre, the finest
      resolution, the slowdown, and whether it has ended. */
  datatype Zoom = Zoom(initial: real, end: real, from: real, range: real, index: nat, res: nat, slowdown: real,
                       ended: bool)

  /** What the configuration guarantees, and the box a shrink starts from. */
  ghost predicate ZoomOk(z: Zoom) {
    && z.end < z.initial && 0.0 < z.range && z.range <= z.initial && z.index < z.res && z.res >= 2
    && 0.0 <= z.slowdown < 1.0 && (!z.ended ==> z.end < z.range)
  }

  /** The distance of neighbouring grid points. */
  function GridStep(range: real, res: nat): real {
    Over(range, (res + 1) as real)
  }

  /** `value_on_grid::index`. */
  function Centre(z: Zoom): real {
    z.from + Times((z.index + 1) as real, GridStep(z.range, z.res))
  }

  // ----- The control block -----

  /** What `shrink_prepare` leaves in the control block for `shrink_execute`. */
  datatype Block = Block(newFrom: real, fromDiff: real, newTo: real, toDiff: real, zoomed: real, totalDiff: real,
                         ratio: real)

  function Prepare(z: Zoom): Block
    requires z.initial != z.end
  {
    var step := GridStep(z.range, z.res);
    var newFrom, newTo := Centre(z) - step, Centre(z) + step;
    var fromDiff, toDiff := newFrom - z.from, z.from + z.range - newTo;
    var zoomed, totalDiff := step + step, fromDiff + toDiff;
    var current := zoomed + Times(totalDiff, z.slowdown);
    Block(newFrom, fromDiff, newTo, toDiff, zoomed, totalDiff, Over(z.initial - current, z.initial - z.end))
  }

  /** The range at ratio `m` of the way from the whole range to the end range. */
  function RangeAt(z: Zoom, m: real): real {
    z.initial - Times(m, z.initial - z.end)
  }

  function Execute(z: Zoom, b: Block, ratio: real): Zoom
    requires b.totalDiff != 0.0
  {
    var scaler := Over(RangeAt(z, ratio) - b.zoomed, b.totalDiff);
    var from := b.newFrom - Times(scaler, b.fromDiff);
    var range := b.newTo + Times(scaler, b.toDiff) - from;
    z.(from := from, range := range, ended := range <= z.end)
  }

  // ----- One coefficient -----

  /** The box is `index` steps to the left of the centre's left neighbour and `res - 1 - index` to the right of the other. */
  lemma StepsAround(z: Zoom)
    requires ZoomOk(z)
    ensures
      var step, b := GridStep(z.range, z.res), Prepare(z);
      && 0.0 < step && step + step + step <= z.range
      && b.fromDiff == Times(z.index as real, step) && b.toDiff == Times((z.res - 1 - z.index) as real, step)
      && b.totalDiff == z.range - step - step
  {
    hide Times, Over;
    var step, n := GridStep(z.range, z.res), (z.res + 1) as real;
    OverTimes(z.range, n);
    TimesComm(step, n);
    TimesUnit(n);
    TimesCancel(0.0, step, n);
    TimesUnit(step);
    TimesAdd(z.index as real, 1.0, step);
    TimesAdd((z.index + 1) as real, 1.0, step);
    TimesAdd((z.res - 1 - z.index) as real, (z.index + 2) as real, step);
    TimesAdd(1.0, 1.0, step);
    TimesAdd(2.0, 1.0, step);
    TimesAtMost(3.0, n, step);
  }

  /** What the block holds. */
  lemma BlockFacts(z: Zoom)
    requires ZoomOk(z)
    ensures
      var b, step := Prepare(z), GridStep(z.range, z.res);
      && 0.0 <= b.fromDiff && 0.0 <= b.toDiff && b.totalDiff == b.fromDiff + b.toDiff
      && b.newFrom - b.fromDiff == z.from && b.newTo + b.toDiff == z.from + z.range
      && b.newFrom == Centre(z) - step && b.newTo == Centre(z) + step
      && b.zoomed == b.newTo - b.newFrom == step + step && 0.0 < step
      && b.zoomed + b.totalDiff == z.range && z.range / 3.0 <= b.totalDiff < z.range && 0.0 < b.totalDiff
      && Times(b.ratio, z.initial - z.end) == z.initial - (b.zoomed + Times(b.totalDiff, z.slowdown))
  {
    hide Times, Over;
    StepsAround(z);
    TimesPos(z.index as real, GridStep(z.range, z.res));
    TimesPos((z.res - 1 - z.index) as real, GridStep(z.range, z.res));
    var b := Prepare(z);
    OverTimes(z.initial - (b.zoomed + Times(b.totalDiff, z.slowdown)), z.initial - z.end);
  }

  /** The ratio `m` at which the range stands. */
  ghost predicate AtRatio(z: Zoom, m: real) {
    z.range == RangeAt(z, m)
  }

  /** A prepared coefficient asks for strictly more than where it stands, so the branch for ratios that are not positive
      is never taken. */
  lemma PrepareGrows(z: Zoom, m: real)
    requires ZoomOk(z) && AtRatio(z, m) && 0.0 <= m
    ensures m < Prepare(z).ratio && 0.0 < Prepare(z).ratio
    ensures Times(Prepare(z).ratio - m, z.initial - z.end) == Times(1.0 - z.slowdown, Prepare(z).totalDiff)
  {
    hide Times, Over, Prepare, GridStep, Centre;
    BlockFacts(z);
    var b, d := Prepare(z), z.initial - z.end;
    TimesSub(b.ratio, m, d);
    TimesSub(1.0, z.slowdown, b.totalDiff);
    TimesUnit(b.totalDiff);
    TimesComm(z.slowdown, b.totalDiff);
    TimesPos(1.0 - z.slowdown, b.totalDiff);
    TimesUnit(d);
    TimesCancel(0.0, b.ratio - m, d);
  }

  /** What the ratio bounds mean for the range. */
  lemma RangeBounds(z: Zoom, m: real, ratio: real)
    requires ZoomOk(z) && AtRatio(z, m) && 0.0 <= m < ratio <= Prepare(z).ratio
    ensures Prepare(z).zoomed <= RangeAt(z, ratio) < z.range
  {
    hide Times, Over, Prepare, GridStep, Centre;
    BlockFacts(z);
    var b, d := Prepare(z), z.initial - z.end;
    TimesLess(m, ratio, d);
    TimesAtMost(ratio, b.ratio, d);
    TimesPos(b.totalDiff, z.slowdown);
  }

  /** The two sides give up the same part of what they have: the slack of the old box beyond the centre's neighbours. */
  ghost predicate Balanced(z: Zoom, t: Zoom) {
    var left, right := Centre(z) - GridStep(z.range, z.res) - z.from, z.from + z.range - (Centre(z) + GridStep(z.range, z.res));
    Times(t.from - z.from, right) == Times(z.from + z.range - (t.from + t.range), left)
  }

  /** With the length this says where the new box lies. */
  lemma BalancedOnce(z: Zoom, t: Zoom, u: Zoom)
    requires ZoomOk(z) && Balanced(z, t) && Balanced(z, u) && t.range == u.range
    ensures t.from == u.from
  {
    hide Times, Over, GridStep, Centre, Prepare;
    BlockFacts(z);
    var b := Prepare(z);
    TimesSub(t.from - z.from, u.from - z.from, b.toDiff);
    TimesSub(z.from + z.range - (t.from + t.range), z.from + z.range - (u.from + u.range), b.fromDiff);
    TimesSub(0.0, t.from - u.from, b.fromDiff);
    TimesUnit(b.fromDiff);
    TimesUnit(b.totalDiff);
    TimesComm(t.from - u.from, b.toDiff);
    TimesComm(t.from - u.from, b.fromDiff);
    TimesAdd(b.toDiff, b.fromDiff, t.from - u.from);
    TimesComm(b.totalDiff, t.from - u.from);
    TimesCancel(t.from - u.from, 0.0, b.totalDiff);
  }

  lemma ExecuteBalanced(z: Zoom, ratio: real)
    requires ZoomOk(z)
    ensures Prepare(z).totalDiff != 0.0 && Balanced(z, Execute(z, Prepare(z), ratio))
  {
    hide Times, Over, GridStep, Centre, Prepare;
    BlockFacts(z);
    var b := Prepare(z);
    var scaler := Over(RangeAt(z, ratio) - b.zoomed, b.totalDiff);
    TimesSub(1.0, scaler, b.fromDiff);
    TimesSub(1.0, scaler, b.toDiff);
    TimesUnit(b.fromDiff);
    TimesUnit(b.toDiff);
    TimesAssoc(1.0 - scaler, b.fromDiff, b.toDiff);
    TimesAssoc(1.0 - scaler, b.toDiff, b.fromDiff);
    TimesComm(b.fromDiff, b.toDiff);
  }

  /** A shrink to a ratio between where the range stands and what it asked for. */
  lemma ExecuteMeets(z: Zoom, m: real, ratio: real)
    requires ZoomOk(z) && AtRatio(z, m) && 0.0 <= m < ratio <= Prepare(z).ratio
    ensures Prepare(z).totalDiff != 0.0
    ensures
      var t, step := Execute(z, Prepare(z), ratio), GridStep(z.range, z.res);
      && AtRatio(t, ratio)
      && z.from <= t.from && t.from + t.range <= z.from + z.range && t.range < z.range
      && t.from <= Centre(z) - step && Centre(z) + step <= t.from + t.range
      && step + step <= t.range && 0.0 < t.range && Balanced(z, t)
  {
    hide Times, Over, GridStep, Centre, Prepare;
    ExecuteBalanced(z, ratio);
    hide Balanced;
    BlockFacts(z);
    RangeBounds(z, m, ratio);
    var b := Prepare(z);
    var rest := RangeAt(z, ratio) - b.zoomed;
    var scaler := Over(rest, b.totalDiff);
    OverTimes(rest, b.totalDiff);
    OverPart(rest, b.totalDiff);
    TimesPart(scaler, b.fromDiff);
    TimesPart(scaler, b.toDiff);
    TimesComm(scaler, b.totalDiff);
    TimesAdd(b.fromDiff, b.toDiff, scaler);
    TimesComm(scaler, b.fromDiff);
    TimesComm(scaler, b.toDiff);
  }

  /** A range has ended exactly when the ratio has come to one. */
  lemma EndedAtOne(z: Zoom, m: real)
    requires z.end < z.initial && AtRatio(z, m)
    ensures z.range <= z.end <==> m >= 1.0
  {
    hide Times;
    var d := z.initial - z.end;
    TimesUnit(d);
    if m >= 1.0 { TimesAtMost(1.0, m, d); } else { TimesLess(m, 1.0, d); }
  }

  lemma Removable(z: Zoom)
    requires ZoomOk(z)
    ensures Prepare(z).totalDiff != 0.0
  {
    BlockFacts(z);
  }

  // ----- All coefficients -----

  /** The hidden invariant: one common ratio for all coefficients that have not ended. */
  ghost predicate InStep(all: seq<Zoom>, m: real) {
    && 0.0 <= m
    && (forall i :: 0 <= i < |all| ==> ZoomOk(all[i]))
    && (forall i :: 0 <= i < |all| && !all[i].ended ==> AtRatio(all[i], m))
  }

  ghost predicate Some(all: seq<Zoom>) { exists i :: 0 <= i < |all| && !all[i].ended }

  /** `least` is the smallest ratio asked for by a coefficient that has not ended. */
  ghost predicate IsLeast(all: seq<Zoom>, n: nat, least: real)
    requires n <= |all| && forall i :: 0 <= i < |all| ==> ZoomOk(all[i])
  {
    && (forall i :: 0 <= i < n && !all[i].ended ==> ZoomOk(all[i]) && least <= Prepare(all[i]).ratio)
    && exists i :: 0 <= i < n && !all[i].ended && ZoomOk(all[i]) && least == Prepare(all[i]).ratio
  }

  /** The coefficients after a shrink to `ratio`. */
  function Shrunk(all: seq<Zoom>, ratio: real): (r: seq<Zoom>)
    requires forall i :: 0 <= i < |all| ==> ZoomOk(all[i])
    ensures |r| == |all|
  {
    seq(|all|, i requires 0 <= i < |all| =>
      if all[i].ended then all[i] else (Removable(all[i]); Execute(all[i], Prepare(all[i]), ratio)))
  }

  /** Lockstep: a shrink to the least ratio asked for moves everybody to that ratio, strictly further; every new box lies
      in the old one around the centre and its neighbours, both sides giving up the same part of their slack; and they all
      end, or none does, as the ratio comes to one. */
  lemma ShrinkInStep(all: seq<Zoom>, m: real, least: real)
    requires InStep(all, m) && IsLeast(all, |all|, least)
    ensures
      var t := Shrunk(all, least);
      && m < least
      && (forall i :: 0 <= i < |all| && !all[i].ended ==>
            && AtRatio(t[i], least) && 0.0 < t[i].range && (t[i].ended <==> least >= 1.0)
            && all[i].from <= t[i].from && t[i].from + t[i].range <= all[i].from + all[i].range
            && t[i].range < all[i].range && Balanced(all[i], t[i])
            && t[i].from <= Centre(all[i]) - GridStep(all[i].range, all[i].res)
            && Centre(all[i]) + GridStep(all[i].range, all[i].res) <= t[i].from + t[i].range)
      && (forall i :: 0 <= i < |all| && all[i].ended ==> t[i] == all[i])
      && InStep(t, least)
  {
    hide Prepare, Execute, Centre, GridStep, AtRatio, Times, Over, Balanced;
    var t := Shrunk(all, least);
    forall i | 0 <= i < |all| && !all[i].ended ensures m < Prepare(all[i]).ratio { PrepareGrows(all[i], m); }
    forall i | 0 <= i < |all| && !all[i].ended
      ensures AtRatio(t[i], least) && ZoomOk(t[i]) && 0.0 < t[i].range && (t[i].ended <==> least >= 1.0)
      ensures all[i].from <= t[i].from && t[i].from + t[i].range <= all[i].from + all[i].range
      ensures t[i].range < all[i].range && Balanced(all[i], t[i])
      ensures t[i].from <= Centre(all[i]) - GridStep(all[i].range, all[i].res)
      ensures Centre(all[i]) + GridStep(all[i].range, all[i].res) <= t[i].from + t[i].range
    {
      ExecuteMeets(all[i], m, least);
      ExecuteKeeps(all[i], Prepare(all[i]), least);
      EndedAtOne(t[i], least);
    }
  }

  lemma ExecuteKeeps(z: Zoom, b: Block, ratio: real)
    requires b.totalDiff != 0.0
    ensures
      var t := Execute(z, b, ratio);
      && t == z.(from := t.from, range := t.range, ended := t.ended) && (t.ended <==> t.range <= t.end)
  {
  }

  // ----- In place -----

  function Free(all: seq<Zoom>): (n: nat)
    ensures n <= |all| && (n == 0 <==> forall i :: 0 <= i < |all| ==> all[i].ended)
  {
    if all == [] then 0
    else
      var n := Free(all[..|all| - 1]);
      assert forall i :: 0 <= i < |all| - 1 ==> all[..|all| - 1][i] == all[i];
      if all[|all| - 1].ended then n else n + 1
  }

  lemma FreeTake(all: seq<Zoom>, i: nat)
    requires i < |all|
    ensures Free(all[..i + 1]) == Free(all[..i]) + if all[i].ended then 0 else 1
  {
    assert all[..i + 1][..i] == all[..i];
  }

  /** `shrink_prepare` for every coefficient: the least ratio asked for. */
  method LeastRatio(a: array<Zoom>) returns (min: real)
    requires (forall i :: 0 <= i < a.Length ==> ZoomOk(a[i])) && Some(a[..])
    ensures forall i :: 0 <= i < a.Length ==> ZoomOk(a[..][i])
    ensures IsLeast(a[..], a.Length, min)
  {
    hide ZoomOk, Prepare;
    var any := false;
    min := 0.0;
    for i := 0 to a.Length
      invariant any <==> exists j :: 0 <= j < i && !a[..][j].ended
      invariant any ==> IsLeast(a[..], i, min)
    {
      ZoomDiffers(a[i]);
      if !a[i].ended {
        var ratio := Prepare(a[i]).ratio;
        if !any || ratio < min {
          any, min := true, ratio;
        }
      }
    }
  }

  /** `shrink_execute` for every coefficient: the count of those that are still waited for goes down with each that
      ends. */
  method ExecuteAll(a: array<Zoom>, min: real, wait: nat) returns (left: nat)
    requires (forall i :: 0 <= i < a.Length ==> ZoomOk(a[i])) && wait == Free(a[..])
    modifies a
    ensures forall i :: 0 <= i < a.Length ==> ZoomOk(old(a[i]))
    ensures a[..] == Shrunk(old(a[..]), min) && left == Free(a[..])
  {
    hide ZoomOk, Prepare, Execute, Free, Shrunk;
    ghost var all := a[..];
    ghost var t := Shrunk(all, min);
    left := wait;
    FreeNone(all, t);
    for i := 0 to a.Length
      invariant forall k :: 0 <= k < a.Length ==> a[k] == if k < i then t[k] else all[k]
      invariant left + Free(all[..i]) == wait + Free(t[..i]) && Free(all[..i]) <= wait
    {
      FreeTake(all, i);
      FreeTake(t, i);
      FreeMono(all, i);
      ShrunkAt(all, min, i);
      if !a[i].ended {
        a[i] := Execute(a[i], Prepare(a[i]), min);
        if a[i].ended { left := left - 1; }
      }
    }
    assert t[..|t|] == t && all[..|all|] == all;
    assert a[..] == t;
  }

  lemma FreeNone(all: seq<Zoom>, t: seq<Zoom>)
    ensures Free(all[..0]) == Free(t[..0]) == 0
  {
  }

  /** The shrink of all coefficients. */
  method ShrinkAll(a: array<Zoom>, wait: nat) returns (left: nat, ghost least: real)
    requires (forall i :: 0 <= i < a.Length ==> ZoomOk(a[i])) && Some(a[..]) && wait == Free(a[..])
    modifies a
    ensures (forall i :: 0 <= i < a.Length ==> ZoomOk(old(a[i]))) && IsLeast(old(a[..]), a.Length, least)
    ensures a[..] == Shrunk(old(a[..]), least) && left == Free(a[..])
  {
    hide ZoomOk, Prepare, Execute, Free, Shrunk;
    var min := LeastRatio(a);
    least := min;
    left := ExecuteAll(a, min, wait);
  }

  lemma ZoomDiffers(z: Zoom)
    requires ZoomOk(z)
    ensures z.initial != z.end
  {
  }

  lemma FreeMono(all: seq<Zoom>, i: nat)
    requires i < |all|
    ensures Free(all[..i + 1]) <= Free(all)
    decreases |all| - i
  {
    if i + 1 < |all| {
      FreeMono(all, i + 1);
      FreeTake(all, i + 1);
    } else {
      assert all[..i + 1] == all;
    }
  }

  lemma ShrunkAt(all: seq<Zoom>, least: real, i: nat)
    requires i < |all| && forall k :: 0 <= k < |all| ==> ZoomOk(all[k])
    ensures all[i].initial != all[i].end && Prepare(all[i]).totalDiff != 0.0
    ensures Shrunk(all, least)[i] == if all[i].ended then all[i] else Execute(all[i], Prepare(all[i]), least)
  {
    hide Prepare, Execute;
    Removable(all[i]);
  }

  // ----- Runs of shrinks -----

  /** From one box to the next: a shrink, then whatever bootstrapping and the zoom levels make of the centre, the
      resolutions and the slowdowns. */
  ghost predicate Next(all: seq<Zoom>, next: seq<Zoom>, least: real) {
    && (forall i :: 0 <= i < |all| ==> ZoomOk(all[i]))
    && IsLeast(all, |all|, least) && |next| == |all|
    && (forall i :: 0 <= i < |next| ==> ZoomOk(next[i]) && SameBox(Shrunk(all, least)[i], next[i]))
  }

  ghost predicate SameBox(z: Zoom, t: Zoom) {
    t.initial == z.initial && t.end == z.end && t.from == z.from && t.range == z.range && t.ended == z.ended
  }

  ghost predicate Run(states: seq<seq<Zoom>>, ratios: seq<real>) {
    |states| == |ratios| + 1 && forall n :: 0 <= n < |ratios| ==> Next(states[n], states[n + 1], ratios[n])
  }

  lemma NextInStep(all: seq<Zoom>, next: seq<Zoom>, m: real, least: real)
    requires InStep(all, m) && Next(all, next, least)
    ensures m < least && InStep(next, least)
    ensures forall i :: 0 <= i < |all| && !all[i].ended ==>
              && 0.0 < next[i].range && next[i].end == all[i].end
              && (next[i].ended <==> least >= 1.0) && (next[i].ended ==> next[i].range <= next[i].end)
    ensures forall i :: 0 <= i < |all| && all[i].ended ==> next[i].ended
  {
    hide ZoomOk, Prepare, Execute, Centre, GridStep;
    ShrinkInStep(all, m, least);
    forall i | 0 <= i < |all| && !all[i].ended
      ensures next[i].end == all[i].end && (next[i].ended ==> next[i].range <= next[i].end)
    {
      ShrunkAt(all, least, i);
      ExecuteKeeps(all[i], Prepare(all[i]), least);
    }
  }

  /** How much the ratio grows at least. */
  ghost predicate Paced(z: Zoom, q: real, pace: real) {
    z.end > 0.0 && z.slowdown <= q && Times(pace, z.initial - z.end) <= Times(1.0 - q, z.end / 3.0)
  }

  lemma GrowsBy(z: Zoom, m: real, q: real, pace: real)
    requires ZoomOk(z) && !z.ended && AtRatio(z, m) && 0.0 <= m && Paced(z, q, pace) && q < 1.0
    ensures m + pace <= Prepare(z).ratio
  {
    hide Prepare, Times, Over, GridStep, Centre;
    BlockFacts(z);
    PrepareGrows(z, m);
    var b, d := Prepare(z), z.initial - z.end;
    TimesComm(1.0 - q, z.end / 3.0);
    TimesComm(1.0 - q, b.totalDiff);
    TimesAtMost(z.end / 3.0, b.totalDiff, 1.0 - q);
    TimesAtMost(1.0 - q, 1.0 - z.slowdown, b.totalDiff);
    TimesCancel(pace, b.ratio - m, d);
  }

  /** The bounds on the slowdown hold throughout the run. */
  ghost predicate Slow(states: seq<seq<Zoom>>, q: real) {
    forall n, i :: 0 <= n < |states| && 0 <= i < |states[n]| ==> states[n][i].slowdown <= q
  }

  /** What a coefficient that is still free needs of a pace: it depends on its whole range and its end only. */
  ghost predicate Allows(z: Zoom, q: real, pace: real) {
    !z.ended ==> z.end > 0.0 && Times(pace, z.initial - z.end) <= Times(1.0 - q, z.end / 3.0)
  }

  ghost predicate AllAllow(all: seq<Zoom>, q: real, pace: real) {
    forall i :: 0 <= i < |all| ==> Allows(all[i], q, pace)
  }

  /** Positive end ranges leave a positive pace. */
  lemma {:induction false} PaceExists(all: seq<Zoom>, q: real) returns (pace: real)
    requires q < 1.0 && forall i :: 0 <= i < |all| ==> ZoomOk(all[i]) && (!all[i].ended ==> all[i].end > 0.0)
    ensures pace > 0.0 && AllAllow(all, q, pace)
    decreases |all|
  {
    hide Times, Over;
    if all == [] {
      pace := 1.0;
    } else {
      var z := all[0];
      var rest := PaceExists(all[1..], q);
      if z.ended {
        pace := rest;
      } else {
        var room, d := Times(1.0 - q, z.end / 3.0), z.initial - z.end;
        TimesPos(1.0 - q, z.end / 3.0);
        OverTimes(room, d);
        TimesUnit(d);
        TimesCancel(0.0, Over(room, d), d);
        pace := if Over(room, d) < rest then Over(room, d) else rest;
        TimesAtMost(pace, Over(room, d), d);
      }
      forall i | 0 <= i < |all| ensures Allows(all[i], q, pace) {
        if i > 0 {
          assert Allows(all[1..][i - 1], q, rest);
          if !all[i].ended { TimesAtMost(pace, rest, all[i].initial - all[i].end); }
        }
      }
    }
  }

  lemma LeastOf(all: seq<Zoom>, least: real) returns (i: nat)
    requires (forall k :: 0 <= k < |all| ==> ZoomOk(all[k])) && IsLeast(all, |all|, least)
    ensures i < |all| && !all[i].ended && ZoomOk(all[i]) && all[i].initial != all[i].end
    ensures least == Prepare(all[i]).ratio
  {
    i :| 0 <= i < |all| && !all[i].ended && ZoomOk(all[i]) && least == Prepare(all[i]).ratio;
  }

  lemma NextAllows(all: seq<Zoom>, next: seq<Zoom>, least: real, q: real, pace: real)
    requires Next(all, next, least) && AllAllow(all, q, pace)
    ensures AllAllow(next, q, pace)
  {
    hide ZoomOk, Prepare, Execute, Times;
    forall i | 0 <= i < |next| ensures Allows(next[i], q, pace) {
      ShrunkAt(all, least, i);
      if !all[i].ended { ExecuteKeeps(all[i], Prepare(all[i]), least); }
    }
  }

  /** Every run of shrinks keeps in step, and the ratio has grown by the pace each time. */
  lemma {:induction false} RunPaced(states: seq<seq<Zoom>>, ratios: seq<real>, q: real, pace: real, n: nat) returns (m: real)
    requires Run(states, ratios) && InStep(states[0], 0.0) && Slow(states, q) && q < 1.0 && n < |states|
    requires AllAllow(states[0], q, pace)
    ensures InStep(states[n], m) && Times(n as real, pace) <= m && AllAllow(states[n], q, pace)
    decreases n
  {
    hide ZoomOk, Prepare, AtRatio, Times, AllAllow;
    if n == 0 {
      m := 0.0;
      TimesUnit(pace);
    } else {
      var was := RunPaced(states, ratios, q, pace, n - 1);
      var all := states[n - 1];
      assert Next(all, states[n], ratios[n - 1]);
      m := ratios[n - 1];
      NextInStep(all, states[n], was, m);
      NextAllows(all, states[n], m, q, pace);
      var i := LeastOf(all, m);
      AllowsPaced(all, q, pace, i);
      GrowsBy(all[i], was, q, pace);
      TimesAdd((n - 1) as real, 1.0, pace);
      TimesUnit(pace);
    }
  }

  lemma AllowsPaced(all: seq<Zoom>, q: real, pace: real, i: nat)
    requires AllAllow(all, q, pace) && i < |all| && !all[i].ended && all[i].slowdown <= q
    ensures Paced(all[i], q, pace)
  {
  }

  /** A run from the whole ranges. */
  ghost predicate RunFrom(all: seq<Zoom>, q: real, states: seq<seq<Zoom>>, ratios: seq<real>) {
    Run(states, ratios) && states[0] == all && InStep(all, 0.0) && Slow(states, q)
  }

  lemma RunParts(all: seq<Zoom>, q: real, states: seq<seq<Zoom>>, ratios: seq<real>)
    requires RunFrom(all, q, states, ratios)
    ensures |states| > 0 && Run(states, ratios) && states[0] == all && InStep(all, 0.0) && Slow(states, q)
  {
  }

  /** A number of shrinks after which, whatever bootstrapping and the zoom levels do, nothing is left to shrink. */
  lemma Bound(all: seq<Zoom>, q: real) returns (bound: nat)
    requires q < 1.0 && forall i :: 0 <= i < |all| ==> ZoomOk(all[i]) && (!all[i].ended ==> all[i].end > 0.0)
    ensures forall states, ratios, n :: RunFrom(all, q, states, ratios) && bound <= n < |states| ==> !Some(states[n])
  {
    hide Times, Over, ZoomOk, Run, InStep, Slow, AllAllow, RunFrom;
    var pace := PaceExists(all, q);
    OverTimes(1.0, pace);
    TimesUnit(pace);
    TimesCancel(0.0, Over(1.0, pace), pace);
    bound := Over(1.0, pace).Floor + 1;
    forall states, ratios, n | RunFrom(all, q, states, ratios) && bound <= n < |states| ensures !Some(states[n]) {
      RunParts(all, q, states, ratios);
      TimesAtMost(Over(1.0, pace), n as real, pace);
      Terminates(states, ratios, q, pace, n);
    }
  }

  lemma Terminates(states: seq<seq<Zoom>>, ratios: seq<real>, q: real, pace: real, n: nat)
    requires Run(states, ratios) && InStep(states[0], 0.0) && Slow(states, q) && q < 1.0
    requires AllAllow(states[0], q, pace) && n < |states| && Times(n as real, pace) >= 1.0
    ensures !Some(states[n])
  {
    hide Times;
    var m := RunPaced(states, ratios, q, pace, n);
    if Some(states[n]) {
      var i :| 0 <= i < |states[n]| && !states[n][i].ended;
      EndedAtOne(states[n][i], m);
    }
  }

  /** And only positive end ranges do: where one is not, no coefficient ever ends. */
  lemma {:induction false} NeverEnds(states: seq<seq<Zoom>>, ratios: seq<real>, i: nat, n: nat)
    requires Run(states, ratios) && InStep(states[0], 0.0) && n < |states|
    requires i < |states[0]| && !states[0][i].ended && states[0][i].end <= 0.0
    ensures |states[n]| == |states[0]| && states[n][i].end <= 0.0 && (exists m :: InStep(states[n], m))
    ensures forall j :: 0 <= j < |states[0]| && !states[0][j].ended ==> !states[n][j].ended
    decreases n
  {
    hide ZoomOk, Prepare, AtRatio;
    if n > 0 {
      NeverEnds(states, ratios, i, n - 1);
      var m :| InStep(states[n - 1], m);
      assert Next(states[n - 1], states[n], ratios[n - 1]);
      NextInStep(states[n - 1], states[n], m, ratios[n - 1]);
    }
  }
}
