/** The zoom levels of a task: as the ranges come down, coefficients go over to other resolutions, each by a threshold of its
    own, and once all of them have passed a level its number of coefficients at once is intended from then on. */
module Zooming {

  datatype Refinement = Refinement(threshold: real, slowdown: real, resolutions: seq<nat>)

  datatype Stage = Stage(atOnce: nat, coeffs: seq<Refinement>)

  /** The first resolution is the finest, and it has at least two steps. */
  ghost predicate Fine(list: seq<nat>) {
    list != [] && list[0] >= 2 && forall l :: 0 <= l < |list| ==> list[l] <= list[0]
  }

  /** What the controller makes of the options for one zoom level. */
  ghost predicate StageOk(stage: Stage, n: nat) {
    && 1 <= stage.atOnce <= n && |stage.coeffs| == n
    && forall c :: 0 <= c < n ==> Fine(stage.coeffs[c].resolutions) && |stage.coeffs[c].resolutions| == stage.atOnce
  }

  ghost predicate StagesOk(stages: seq<Stage>, n: nat) {
    forall k :: 0 <= k < |stages| ==> StageOk(stages[k], n)
  }

  predicate Passes(stage: Stage, c: nat, range: real)
    requires c < |stage.coeffs|
  {
    range <= stage.coeffs[c].threshold
  }

  predicate AllPass(stage: Stage, ranges: seq<real>)
    requires |stage.coeffs| == |ranges|
  {
    forall c :: 0 <= c < |ranges| ==> Passes(stage, c, ranges[c])
  }

  ghost predicate Sized(stages: seq<Stage>, n: nat) {
    forall k :: 0 <= k < |stages| ==> |stages[k].coeffs| == n
  }

  /** One more than the last stage coefficient `c` has passed, zero if there is none. */
  ghost function Latest(stages: seq<Stage>, c: nat, range: real): (k: nat)
    requires forall i :: 0 <= i < |stages| ==> c < |stages[i].coeffs|
    ensures k <= |stages| && (k > 0 ==> Passes(stages[k - 1], c, range))
    ensures forall i :: k <= i < |stages| ==> !Passes(stages[i], c, range)
  {
    if stages == [] then 0
    else if Passes(stages[|stages| - 1], c, range) then |stages|
    else Latest(stages[..|stages| - 1], c, range)
  }

  /** The same for all coefficients at once. */
  ghost function LatestOfAll(stages: seq<Stage>, ranges: seq<real>): (k: nat)
    requires Sized(stages, |ranges|)
    ensures k <= |stages| && (k > 0 ==> AllPass(stages[k - 1], ranges))
    ensures forall i :: k <= i < |stages| ==> !AllPass(stages[i], ranges)
  {
    if stages == [] then 0
    else if AllPass(stages[|stages| - 1], ranges) then |stages|
    else LatestOfAll(stages[..|stages| - 1], ranges)
  }

  ghost function ChosenList(stages: seq<Stage>, c: nat, range: real, list: seq<nat>): seq<nat>
    requires forall i :: 0 <= i < |stages| ==> c < |stages[i].coeffs|
  {
    var k := Latest(stages, c, range);
    if k == 0 then list else stages[k - 1].coeffs[c].resolutions
  }

  ghost function ChosenSlowdown(stages: seq<Stage>, c: nat, range: real, slowdown: real): real
    requires forall i :: 0 <= i < |stages| ==> c < |stages[i].coeffs|
  {
    var k := Latest(stages, c, range);
    if k == 0 then slowdown else stages[k - 1].coeffs[c].slowdown
  }

  ghost function Intended(stages: seq<Stage>, ranges: seq<real>, intended: nat): nat
    requires Sized(stages, |ranges|)
  {
    var k := LatestOfAll(stages, ranges);
    if k == 0 then intended else stages[k - 1].atOnce
  }

  /** The list and the slowdown are those of the last zoom level whose threshold the range has come down to, and stay where there
      is none. */
  lemma ChosenIsLast(stages: seq<Stage>, k: nat, c: nat, range: real, list: seq<nat>, slowdown: real)
    requires k <= |stages| && forall i :: 0 <= i < |stages| ==> c < |stages[i].coeffs|
    requires k > 0 ==> range <= stages[k - 1].coeffs[c].threshold
    requires forall i :: k <= i < |stages| ==> stages[i].coeffs[c].threshold < range
    ensures ChosenList(stages, c, range, list) == if k > 0 then stages[k - 1].coeffs[c].resolutions else list
    ensures ChosenSlowdown(stages, c, range, slowdown) == if k > 0 then stages[k - 1].coeffs[c].slowdown else slowdown
  {
    assert forall i :: 0 <= i < |stages| ==> (Passes(stages[i], c, range) <==> range <= stages[i].coeffs[c].threshold);
  }

  /** The number at once is that of the last zoom level to whose thresholds all ranges have come down. */
  lemma IntendedIsLast(stages: seq<Stage>, k: nat, ranges: seq<real>, intended: nat)
    requires Sized(stages, |ranges|) && k <= |stages|
    requires k > 0 ==> forall c :: 0 <= c < |ranges| ==> ranges[c] <= stages[k - 1].coeffs[c].threshold
    requires forall i :: k <= i < |stages| ==> exists c :: 0 <= c < |ranges| && stages[i].coeffs[c].threshold < ranges[c]
    ensures Intended(stages, ranges, intended) == if k > 0 then stages[k - 1].atOnce else intended
  {
    if k > 0 { assert AllPass(stages[k - 1], ranges); }
    forall i | k <= i < |stages| ensures !AllPass(stages[i], ranges) {
      var c :| 0 <= c < |ranges| && stages[i].coeffs[c].threshold < ranges[c];
      assert !Passes(stages[i], c, ranges[c]);
    }
  }

  lemma LatestMore(stages: seq<Stage>, k: nat, c: nat, range: real)
    requires k < |stages| && forall i :: 0 <= i < |stages| ==> c < |stages[i].coeffs|
    ensures Latest(stages[..k + 1], c, range) == if Passes(stages[k], c, range) then k + 1 else Latest(stages[..k], c, range)
  {
    assert stages[..k + 1][..k] == stages[..k];
  }

  /** One zoom level more. */
  lemma ChosenStep(stages: seq<Stage>, k: nat, c: nat, range: real, list: seq<nat>, slowdown: real)
    requires k < |stages| && forall i :: 0 <= i < |stages| ==> c < |stages[i].coeffs|
    ensures ChosenList(stages[..k + 1], c, range, list)
         == if Passes(stages[k], c, range) then stages[k].coeffs[c].resolutions else ChosenList(stages[..k], c, range, list)
    ensures ChosenSlowdown(stages[..k + 1], c, range, slowdown)
         == if Passes(stages[k], c, range) then stages[k].coeffs[c].slowdown else ChosenSlowdown(stages[..k], c, range, slowdown)
  {
    hide Latest, Passes;
    LatestMore(stages, k, c, range);
  }

  lemma LatestOfAllMore(stages: seq<Stage>, k: nat, ranges: seq<real>)
    requires k < |stages| && Sized(stages, |ranges|)
    ensures LatestOfAll(stages[..k + 1], ranges) == if AllPass(stages[k], ranges) then k + 1 else LatestOfAll(stages[..k], ranges)
  {
    assert stages[..k + 1][..k] == stages[..k];
  }

  /** `grid_resolutions.resize(intended, grid_resolutions.back())` where the list is shorter. */
  function Padded(list: seq<nat>, intended: nat): (r: seq<nat>)
    requires list != []
    ensures list <= r && |r| == if |list| < intended then intended else |list|
    ensures forall l :: |list| <= l < |r| ==> r[l] == list[|list| - 1]
  {
    if |list| < intended then list + seq(intended - |list|, l => list[|list| - 1]) else list
  }

  /** The lists of all coefficients after a shrink. */
  ghost function Refined(stages: seq<Stage>, ranges: seq<real>, lists: seq<seq<nat>>, intended: nat): (r: seq<seq<nat>>)
    requires Sized(stages, |ranges|) && |lists| == |ranges|
    requires forall c :: 0 <= c < |lists| ==> ChosenList(stages, c, ranges[c], lists[c]) != []
    ensures |r| == |lists|
    ensures forall c :: 0 <= c < |r| ==>
              r[c] == Padded(ChosenList(stages, c, ranges[c], lists[c]), Intended(stages, ranges, intended))
  {
    seq(|lists|, c requires 0 <= c < |lists| =>
      Padded(ChosenList(stages, c, ranges[c], lists[c]), Intended(stages, ranges, intended)))
  }

  /** Whatever mix of zoom levels it is: every list is as long as intended, its first resolution is the finest, and none is
      longer than there are coefficients. */
  lemma RefinedFine(stages: seq<Stage>, ranges: seq<real>, lists: seq<seq<nat>>, intended: nat)
    requires StagesOk(stages, |lists|) && |lists| == |ranges| && 1 <= intended <= |lists|
    requires forall c :: 0 <= c < |lists| ==> Fine(lists[c]) && |lists[c]| <= |lists|
    ensures Sized(stages, |ranges|) && forall c :: 0 <= c < |lists| ==> ChosenList(stages, c, ranges[c], lists[c]) != []
    ensures 1 <= Intended(stages, ranges, intended) <= |lists|
    ensures forall c :: 0 <= c < |lists| ==>
              var list := Refined(stages, ranges, lists, intended)[c];
              Fine(list) && Intended(stages, ranges, intended) <= |list| <= |lists|
  {
    forall c | 0 <= c < |lists|
      ensures Fine(ChosenList(stages, c, ranges[c], lists[c])) && |ChosenList(stages, c, ranges[c], lists[c])| <= |lists|
    {
      var k := Latest(stages, c, ranges[c]);
      assert k > 0 ==> StageOk(stages[k - 1], |lists|);
    }
    var k := LatestOfAll(stages, ranges);
    assert k > 0 ==> StageOk(stages[k - 1], |lists|);
    forall c | 0 <= c < |lists| ensures Fine(Refined(stages, ranges, lists, intended)[c]) {
      PaddedFine(ChosenList(stages, c, ranges[c], lists[c]), Intended(stages, ranges, intended));
    }
  }

  lemma PaddedFine(list: seq<nat>, intended: nat)
    requires Fine(list)
    ensures Fine(Padded(list, intended))
  {
    var r := Padded(list, intended);
    forall l | 0 <= l < |r| ensures r[l] <= r[0] {
      assert l < |list| ==> r[l] == list[l];
    }
  }
}
