/** The coefficients' grids: rescaling of a coarse grid onto the finest one, and the single big integer that stands
    for a grid point. */
module Coefficients {
  import opened Arithmetic
  import opened Zooming

  // ----- Grid rescaling -----

  /** Where step `g` of a grid with `lo` steps lands on the grid with `hi` steps. */
  function Rescale(g: nat, lo: nat, hi: nat): nat
    requires lo > 0
  {
    (g * (hi + hi) + hi) / (lo + lo)
  }

  /** Step `r` of the fine grid is the one whose cell holds the middle of the coarse cell `g`, both grids spread over the same
      range: [r / hi, (r + 1) / hi) holds (g + 1/2) / lo. */
  ghost predicate Lands(r: nat, g: nat, lo: nat, hi: nat) {
    2 * r * lo <= (2 * g + 1) * hi < 2 * (r + 1) * lo
  }

  /** A coarse step lands there, and nowhere else. */
  lemma RescaleLands(g: nat, lo: nat, hi: nat, r: nat)
    requires lo > 0
    ensures Lands(r, g, lo, hi) <==> r == Rescale(g, lo, hi)
  {
    DivCell(g * (hi + hi) + hi, lo + lo, r);
    MulAdd(g, g, hi);
    MulAdd(g + g, 1, hi);
    MulDouble(r, lo);
    MulDouble(r + 1, lo);
    MulDouble(g, hi);
  }

  lemma MulDouble(a: nat, b: nat)
    ensures a * (b + b) == 2 * a * b == (a + a) * b
  {
  }

  lemma RescaleBelow(g: nat, lo: nat, hi: nat)
    requires g < lo && hi > 0
    ensures Rescale(g, lo, hi) < hi
  {
    var x := g * (hi + hi) + hi;
    assert x == (2 * g + 1) * hi;
    MulLess(2 * g + 1, lo + lo, hi);
    assert (lo + lo) * hi == hi * (lo + lo);
    SplitTop(x, lo + lo, hi);
  }

  lemma RescaleIncreasing(g: nat, g': nat, lo: nat, hi: nat)
    requires g < g' && 0 < lo <= hi
    ensures Rescale(g, lo, hi) < Rescale(g', lo, hi)
  {
    var d, x, x' := lo + lo, g * (hi + hi) + hi, g' * (hi + hi) + hi;
    MulMono(g + 1, g', hi + hi);
    DivStep(x, x', d);
  }

  lemma RescaleMonotone(g: nat, g': nat, lo: nat, hi: nat)
    requires g <= g' && 0 < lo
    ensures Rescale(g, lo, hi) <= Rescale(g', lo, hi)
  {
    var d, x, x' := lo + lo, g * (hi + hi) + hi, g' * (hi + hi) + hi;
    MulMono(g, g', hi + hi);
    DivMono(x, x', d);
  }

  lemma RescaleIdentity(g: nat, n: nat)
    requires n > 0
    ensures Rescale(g, n, n) == g
  {
    assert g * (n + n) + n == n + g * (n + n);
    DivUnique(g, n + n, n);
  }

  ghost predicate Separates(lo: nat, hi: nat)
    requires lo > 0
  {
    forall g, g' :: 0 <= g < g' < lo ==> Rescale(g, lo, hi) != Rescale(g', lo, hi)
  }

  lemma {:induction false} SeparatesClimbs(g: nat, lo: nat, hi: nat)
    requires g < lo && Separates(lo, hi)
    ensures g <= Rescale(g, lo, hi)
  {
    if g > 0 {
      SeparatesClimbs(g - 1, lo, hi);
      RescaleMonotone(g - 1, g, lo, hi);
    }
  }

  /** No two steps of the coarse grid fall together exactly when it has no more steps than the fine one. */
  lemma SeparatesIff(lo: nat, hi: nat)
    requires lo > 0 && hi > 0
    ensures Separates(lo, hi) <==> lo <= hi
  {
    if lo <= hi {
      forall g, g' | 0 <= g < g' < lo ensures Rescale(g, lo, hi) != Rescale(g', lo, hi) {
        RescaleIncreasing(g, g', lo, hi);
      }
    } else if Separates(lo, hi) {
      SeparatesClimbs(lo - 1, lo, hi);
      RescaleBelow(lo - 1, lo, hi);
    }
  }

  // ----- The position code -----

  /** The mixed-radix number of a point, least significant coefficient first. */
  function Code(res: seq<nat>, point: seq<nat>): nat
    requires |res| == |point|
  {
    if point == [] then 0 else point[0] + Code(res[1..], point[1..]) * res[0]
  }

  ghost predicate InRange(res: seq<nat>, point: seq<nat>) {
    |res| == |point| && forall c :: 0 <= c < |res| ==> point[c] < res[c]
  }

  /** One code, one grid point. */
  lemma {:induction false} CodeInjective(res: seq<nat>, p: seq<nat>, q: seq<nat>)
    requires InRange(res, p) && InRange(res, q) && Code(res, p) == Code(res, q)
    ensures p == q
  {
    if p != [] {
      DivUnique(Code(res[1..], p[1..]), res[0], p[0]);
      DivUnique(Code(res[1..], q[1..]), res[0], q[0]);
      CodeInjective(res[1..], p[1..], q[1..]);
      assert p == [p[0]] + p[1..] && q == [q[0]] + q[1..];
    }
  }

  // ----- The coefficients as the server keeps them -----

  /** `grid_resolutions`, the saved and the working grid index, `range_ended_` and `offset_`. */
  datatype Coefficient = Coefficient(resolutions: seq<nat>, now: nat, tmp: nat, ended: bool, place: nat)

  function Now(all: seq<Coefficient>): (p: seq<nat>)
    ensures |p| == |all|
  {
    seq(|all|, c requires 0 <= c < |all| => all[c].now)
  }

  function Tmp(all: seq<Coefficient>): (p: seq<nat>)
    ensures |p| == |all|
  {
    seq(|all|, c requires 0 <= c < |all| => all[c].tmp)
  }

  function Ended(all: seq<Coefficient>): (e: seq<bool>)
    ensures |e| == |all|
  {
    seq(|all|, c requires 0 <= c < |all| => all[c].ended)
  }

  function GridOf(all: seq<Coefficient>): (g: seq<seq<nat>>)
    ensures |g| == |all|
  {
    seq(|all|, c requires 0 <= c < |all| => all[c].resolutions)
  }

  function First(grid: seq<seq<nat>>): (r: seq<nat>)
    requires forall c :: 0 <= c < |grid| ==> grid[c] != []
    ensures |r| == |grid|
  {
    seq(|grid|, c requires 0 <= c < |grid| => grid[c][0])
  }

  /** The product of the resolutions before coefficient `c`. */
  function PlaceOf(res: seq<nat>, c: nat): nat
    requires c <= |res|
  {
    if c == 0 then 1 else PlaceOf(res, c - 1) * res[c - 1]
  }

  lemma PlaceStart(res: seq<nat>)
    ensures PlaceOf(res, 0) == 1
  {
  }

  lemma PlaceStep(res: seq<nat>, c: nat)
    requires c < |res|
    ensures PlaceOf(res, c + 1) == PlaceOf(res, c) * res[c]
  {
  }

  /** Every coefficient has a grid, and its offset is the product of the finest resolutions before it. */
  ghost predicate PlacesOk(all: seq<Coefficient>) {
    && (forall c :: 0 <= c < |all| ==> all[c].resolutions != [])
    && (forall c :: 0 <= c < |all| ==> all[c].place == PlaceOf(First(GridOf(all)), c))
  }

  /** The offset collected from coefficient `c` on. */
  function Collected(all: seq<Coefficient>, c: nat): nat
    requires c <= |all|
    decreases |all| - c
  {
    if c == |all| then 0 else all[c].place * all[c].tmp + Collected(all, c + 1)
  }

  /** Adding up place times index over all coefficients gives the code of the working point. */
  lemma CollectedIsCode(all: seq<Coefficient>)
    requires PlacesOk(all)
    ensures Collected(all, 0) == Code(First(GridOf(all)), Tmp(all))
  {
    var res, p := First(GridOf(all)), Tmp(all);
    CollectedFrom(all, res, p, 0);
    PlaceStart(res);
    assert res[0..] == res && p[0..] == p;
  }

  lemma {:induction false} CollectedFrom(all: seq<Coefficient>, res: seq<nat>, p: seq<nat>, c: nat)
    requires c <= |all| == |res| == |p|
    requires forall k :: 0 <= k < |all| ==> all[k].place == PlaceOf(res, k) && all[k].tmp == p[k]
    ensures Collected(all, c) == PlaceOf(res, c) * Code(res[c..], p[c..])
    decreases |all| - c
  {
    hide PlaceOf, Code, Collected;
    CollectedStep(all, c);
    if c < |all| {
      CollectedFrom(all, res, p, c + 1);
      CodeFrom(res, p, c, all[c].place, all[c].tmp);
    } else {
      assert res[c..] == [] && p[c..] == [];
      CodeNone();
    }
  }

  lemma CollectedStep(all: seq<Coefficient>, c: nat)
    requires c <= |all|
    ensures Collected(all, c) == if c == |all| then 0 else all[c].place * all[c].tmp + Collected(all, c + 1)
  {
  }

  lemma CodeFrom(res: seq<nat>, p: seq<nat>, c: nat, place: nat, index: nat)
    requires |res| == |p| && c < |res| && place == PlaceOf(res, c) && index == p[c]
    ensures place * index + PlaceOf(res, c + 1) * Code(res[c + 1..], p[c + 1..])
         == PlaceOf(res, c) * Code(res[c..], p[c..])
  {
    hide PlaceOf, Code;
    PlaceStep(res, c);
    assert res[c..][1..] == res[c + 1..] && p[c..][1..] == p[c + 1..];
    CodeStep(res[c..], p[c..]);
    Distribute(place, index, Code(res[c + 1..], p[c + 1..]), res[c]);
  }

  lemma CodeStep(res: seq<nat>, p: seq<nat>)
    requires |res| == |p| && p != []
    ensures Code(res, p) == p[0] + Code(res[1..], p[1..]) * res[0]
  {
  }

  lemma CodeNone()
    ensures Code([], []) == 0
  {
  }

  lemma Distribute(place: nat, digit: nat, rest: nat, r: nat)
    ensures place * digit + place * r * rest == place * (digit + rest * r)
  {
    MulAssoc(place, r, rest);
    assert place * (digit + rest * r) == place * digit + place * (rest * r);
  }

  function Booted(all: seq<Coefficient>, point: seq<nat>): (r: seq<Coefficient>)
    requires |point| == |all|
    ensures |r| == |all|
    ensures forall c :: 0 <= c < |r| ==>
              r[c] == if all[c].ended then all[c] else all[c].(now := point[c], tmp := point[c])
  {
    seq(|all|, c requires 0 <= c < |all| => if all[c].ended then all[c] else all[c].(now := point[c], tmp := point[c]))
  }

  lemma BootedPlaces(all: seq<Coefficient>, point: seq<nat>)
    requires PlacesOk(all) && |point| == |all|
    ensures PlacesOk(Booted(all, point)) && GridOf(Booted(all, point)) == GridOf(all)
    ensures forall c :: 0 <= c < |all| ==> all[c].resolutions != []
  {
    assert GridOf(Booted(all, point)) == GridOf(all);
  }

  lemma SamePlaces(was: seq<Coefficient>, now: seq<Coefficient>)
    requires PlacesOk(was) && |was| == |now| && GridOf(was) == GridOf(now)
    requires forall c :: 0 <= c < |was| ==> now[c].place == was[c].place && now[c].resolutions == was[c].resolutions
    ensures PlacesOk(now)
  {
  }

  /** The resolutions and slowdowns that these zoom levels give. */
  ghost predicate Chosen(stages: seq<Stage>, ranges: seq<real>, was: seq<Coefficient>, now: seq<Coefficient>,
                         slow: seq<real>, slowNow: seq<real>) {
    && |was| == |now| == |ranges| == |slow| == |slowNow| && Sized(stages, |ranges|)
    && forall c :: 0 <= c < |was| ==>
         && now[c] == was[c].(resolutions := ChosenList(stages, c, ranges[c], was[c].resolutions))
         && slowNow[c] == ChosenSlowdown(stages, c, ranges[c], slow[c])
  }

  lemma NoneChosen(stages: seq<Stage>, ranges: seq<real>, was: seq<Coefficient>, slow: seq<real>, intended: nat)
    requires |was| == |ranges| == |slow|
    ensures Chosen(stages[..0], ranges, was, was, slow, slow) && Intended(stages[..0], ranges, intended) == intended
  {
  }

  /** One zoom level more. */
  lemma ChosenMore(stages: seq<Stage>, k: nat, ranges: seq<real>, was: seq<Coefficient>, now: seq<Coefficient>,
                   next: seq<Coefficient>, slow: seq<real>, slowNow: seq<real>, slowNext: seq<real>, intended: nat)
    requires k < |stages| && Sized(stages, |ranges|) && Chosen(stages[..k], ranges, was, now, slow, slowNow)
    requires |next| == |now| && |slowNext| == |slowNow|
    requires forall c :: 0 <= c < |now| ==>
               && next[c] == (if Passes(stages[k], c, ranges[c]) then now[c].(resolutions := stages[k].coeffs[c].resolutions)
                              else now[c])
               && slowNext[c] == if Passes(stages[k], c, ranges[c]) then stages[k].coeffs[c].slowdown else slowNow[c]
    ensures Chosen(stages[..k + 1], ranges, was, next, slow, slowNext)
    ensures Intended(stages[..k + 1], ranges, intended)
         == if AllPass(stages[k], ranges) then stages[k].atOnce else Intended(stages[..k], ranges, intended)
  {
    hide Latest, LatestOfAll, Passes, AllPass, ChosenList, ChosenSlowdown;
    forall c | 0 <= c < |was|
      ensures next[c] == was[c].(resolutions := ChosenList(stages[..k + 1], c, ranges[c], was[c].resolutions))
      ensures slowNext[c] == ChosenSlowdown(stages[..k + 1], c, ranges[c], slow[c])
    {
      ChosenStep(stages, k, c, ranges[c], was[c].resolutions, slow[c]);
    }
    LatestOfAllMore(stages, k, ranges);
  }

  class CoefficientArray {
    var all: seq<Coefficient>
    var offset: nat
    /** Which coefficients were set from the grid or reset, in the order of the calls. */
    ghost var calls: seq<nat>

    ghost predicate Valid()
      reads this
    {
      PlacesOk(all)
    }

    constructor (grid: seq<seq<nat>>)
      requires forall c :: 0 <= c < |grid| ==> grid[c] != []
      ensures Valid() && GridOf(all) == grid
      ensures forall c :: 0 <= c < |all| ==> all[c].now == all[c].tmp == 0 && !all[c].ended
    {
      all := seq(|grid|, c requires 0 <= c < |grid| => Coefficient(grid[c], 0, 0, false, 0));
      new;
      assert GridOf(all) == grid;
      RebuildOffsets();
    }

    /** `offset = 1`, then `rebuild_index_offset` for every coefficient in turn. */
    method RebuildOffsets()
      requires forall c :: 0 <= c < |all| ==> all[c].resolutions != []
      modifies this
      ensures Valid() && |all| == |old(all)|
      ensures forall c :: 0 <= c < |all| ==> all[c] == old(all[c]).(place := all[c].place)
    {
      hide PlaceOf;
      offset := 1;
      ghost var res := First(GridOf(all));
      PlaceStart(res);
      for i := 0 to |all|
        invariant |all| == |old(all)|
        invariant forall c :: 0 <= c < |all| ==> all[c] == old(all[c]).(place := all[c].place)
        invariant offset == PlaceOf(res, i)
        invariant forall c :: 0 <= c < i ==> all[c].place == PlaceOf(res, c)
      {
        all := all[i := all[i].(place := offset)];
        PlaceStep(res, i);
        offset := offset * all[i].resolutions[0];
      }
      assert First(GridOf(all)) == res;
    }

    /** One zoom level: the coefficients that have passed it take over its resolutions and its slowdown. */
    method ApplyStage(stage: Stage, ranges: seq<real>, slowdowns: array<real>) returns (ok: bool)
      requires |ranges| == |all| == slowdowns.Length == |stage.coeffs|
      modifies this`all, slowdowns
      ensures |all| == |old(all)| && (ok <==> AllPass(stage, ranges))
      ensures forall c :: 0 <= c < |all| ==>
                && all[c] == (if Passes(stage, c, ranges[c]) then old(all[c]).(resolutions := stage.coeffs[c].resolutions)
                              else old(all[c]))
                && slowdowns[c] == if Passes(stage, c, ranges[c]) then stage.coeffs[c].slowdown else old(slowdowns[c])
    {
      ok := true;
      for i := 0 to |all|
        invariant |all| == |old(all)| && (ok <==> forall c :: 0 <= c < i ==> Passes(stage, c, ranges[c]))
        invariant forall c :: 0 <= c < |all| ==>
                    && all[c] == (if c < i && Passes(stage, c, ranges[c]) then old(all[c]).(resolutions := stage.coeffs[c].resolutions)
                                  else old(all[c]))
                    && slowdowns[c] == if c < i && Passes(stage, c, ranges[c]) then stage.coeffs[c].slowdown else old(slowdowns[c])
      {
        if ranges[i] > stage.coeffs[i].threshold {
          ok := false;
        } else {
          slowdowns[i] := stage.coeffs[i].slowdown;
          all := all[i := all[i].(resolutions := stage.coeffs[i].resolutions)];
        }
      }
    }

    /** The loops over the zoom levels after a shrink: the last level a coefficient has passed decides its resolutions and
        its slowdown, the last one that all have passed the number of coefficients at once. */
    method ChooseResolutions(stages: seq<Stage>, ranges: seq<real>, slowdowns: array<real>, intended: nat)
      returns (chosen: nat)
      requires |ranges| == |all| == slowdowns.Length && Sized(stages, |all|)
      modifies this`all, slowdowns
      ensures |all| == |old(all)| && chosen == Intended(stages, ranges, intended)
      ensures forall c :: 0 <= c < |all| ==>
                && all[c] == old(all[c]).(resolutions := ChosenList(stages, c, ranges[c], old(all[c]).resolutions))
                && slowdowns[c] == ChosenSlowdown(stages, c, ranges[c], old(slowdowns[c]))
    {
      hide Latest, LatestOfAll, Passes, AllPass, ChosenList, ChosenSlowdown, Intended;
      chosen := intended;
      ghost var was, slow := all, slowdowns[..];
      NoneChosen(stages, ranges, was, slow, intended);
      for k := 0 to |stages|
        invariant Chosen(stages[..k], ranges, was, all, slow, slowdowns[..])
        invariant chosen == Intended(stages[..k], ranges, intended)
      {
        ghost var before, slowBefore := all, slowdowns[..];
        var ok := ApplyStage(stages[k], ranges, slowdowns);
        ChosenMore(stages, k, ranges, was, before, all, slow, slowBefore, slowdowns[..], intended);
        if ok {
          chosen := stages[k].atOnce;
        }
      }
      assert stages[..|stages|] == stages;
    }

    /** Which ranges have ended by now. */
    method MarkEnded(ended: seq<bool>)
      requires |ended| == |all|
      modifies this`all
      ensures |all| == |old(all)| && forall c :: 0 <= c < |all| ==> all[c] == old(all[c]).(ended := ended[c])
    {
      for c := 0 to |all|
        invariant |all| == |old(all)|
        invariant forall d :: 0 <= d < |all| ==> all[d] == if d < c then old(all[d]).(ended := ended[d]) else old(all[d])
      {
        all := all[c := all[c].(ended := ended[c])];
      }
    }

    /** `post_shrink` for every coefficient: short lists are padded with their last resolution, every index is at zero, and
        the offsets are rebuilt. */
    method PostShrink(intended: nat)
      requires forall c :: 0 <= c < |all| ==> all[c].resolutions != []
      modifies this
      ensures Valid() && |all| == |old(all)| && Ended(all) == old(Ended(all))
      ensures forall c :: 0 <= c < |all| ==>
                all[c].resolutions == Padded(old(all[c]).resolutions, intended) && all[c].now == all[c].tmp == 0
    {
      for i := 0 to |all|
        invariant |all| == |old(all)|
        invariant forall c :: 0 <= c < |all| ==>
                    all[c] == if c < i then old(all[c]).(resolutions := Padded(old(all[c]).resolutions, intended), now := 0, tmp := 0)
                              else old(all[c])
      {
        all := all[i := all[i].(resolutions := Padded(all[i].resolutions, intended), now := 0, tmp := 0)];
      }
      RebuildOffsets();
      assert Ended(all) == old(Ended(all));
    }

    /** `sync` for every coefficient of a peer: resolutions, ended range and index as a whole state gives them. */
    method Sync(grid: seq<seq<nat>>, ended: seq<bool>, centre: seq<nat>)
      requires |grid| == |ended| == |centre| == |all| && forall c :: 0 <= c < |grid| ==> grid[c] != []
      modifies this
      ensures Valid() && GridOf(all) == grid && Ended(all) == ended && Now(all) == Tmp(all) == centre
    {
      for i := 0 to |all|
        invariant |all| == |grid|
        invariant forall c :: 0 <= c < i ==> all[c] == Coefficient(grid[c], centre[c], centre[c], ended[c], all[c].place)
      {
        all := all[i := Coefficient(grid[i], centre[i], centre[i], ended[i], all[i].place)];
      }
      RebuildOffsets();
      assert GridOf(all) == grid && Ended(all) == ended && Now(all) == centre && Tmp(all) == centre;
    }

    method ValueFromGrid(c: nat, g: nat, res: nat)
      requires c < |all| && all[c].resolutions != [] && res > 0
      modifies this
      ensures calls == old(calls) + [c]
      ensures all == old(all)[c := old(all[c]).(tmp :=
                if old(all[c]).ended then old(all[c]).tmp else Rescale(g, res, old(all[c]).resolutions[0]))]
      ensures old(all[c]).ended || Lands(all[c].tmp, g, res, all[c].resolutions[0])
      ensures offset == old(offset) + if old(all[c]).ended then 0 else all[c].place * all[c].tmp
    {
      RescaleLands(g, res, all[c].resolutions[0], Rescale(g, res, all[c].resolutions[0]));
      calls := calls + [c];
      if !all[c].ended {
        all := all[c := all[c].(tmp := Rescale(g, res, all[c].resolutions[0]))];
        offset := offset + all[c].place * all[c].tmp;
      }
    }

    method ValueReset(c: nat)
      requires c < |all|
      modifies this
      ensures calls == old(calls) + [c]
      ensures all == old(all)[c := old(all[c]).(tmp := old(all[c]).now)]
      ensures offset == old(offset) + all[c].place * all[c].tmp
    {
      calls := calls + [c];
      all := all[c := all[c].(tmp := all[c].now)];
      offset := offset + all[c].place * all[c].tmp;
    }

    /** `reset_after_bootstrapping` for every coefficient in turn: the reported index, unless the range has ended. */
    method ResetAfterBootstrapping(point: seq<nat>)
      requires Valid() && |point| == |all|
      modifies this`all, this`offset
      ensures all == Booted(old(all), point)
      ensures offset == old(offset) + Code(First(GridOf(all)), Tmp(all))
    {
      hide PlacesOk;
      ghost var end, start := Booted(all, point), offset;
      BootedPlaces(all, point);
      CollectedIsCode(end);
      for c := 0 to |all|
        invariant |all| == |end| && forall d :: 0 <= d < |all| ==> all[d] == if d < c then end[d] else old(all[d])
        invariant offset + Collected(end, c) == start + Collected(end, 0)
      {
        if !all[c].ended {
          all := all[c := all[c].(now := point[c], tmp := point[c])];
        }
        offset := offset + all[c].place * all[c].tmp;
      }
    }

    /** `value_rand_on_bootstrap` for every coefficient: an index of its range, unless that has ended. */
    method ValueOnBootstrap(point: seq<nat>)
      requires |point| == |all|
      modifies this`all
      ensures |all| == |old(all)|
      ensures forall c :: 0 <= c < |all| ==>
                all[c] == old(all[c]).(tmp := if old(all[c]).ended then old(all[c]).tmp else point[c])
    {
      for c := 0 to |all|
        invariant |all| == |old(all)|
        invariant forall d :: 0 <= d < |all| ==>
                    all[d] == if d < c && !old(all[d]).ended then old(all[d]).(tmp := point[d]) else old(all[d])
      {
        if !all[c].ended {
          all := all[c := all[c].(tmp := point[c])];
        }
      }
    }

    /** `value_save` for every coefficient. */
    method SaveAll()
      modifies this`all
      ensures |all| == |old(all)|
      ensures forall c :: 0 <= c < |all| ==> all[c] == old(all[c]).(now := old(all[c]).tmp)
    {
      for c := 0 to |all|
        invariant |all| == |old(all)|
        invariant forall d :: 0 <= d < |all| ==> all[d] == if d < c then old(all[d]).(now := old(all[d]).tmp) else old(all[d])
      {
        all := all[c := all[c].(now := all[c].tmp)];
      }
    }
  }
}
