/** What `demodulate` relies on and keeps: the lookups in the two ordered maps, and where a run stands between calls. */
module Demodulation {
  import opened Arithmetic
  import opened Combos
  import opened Coefficients
  import opened Positions

  // ----- Lookups -----

  /** `::std::map::lower_bound`. */
  function LowerKey(t: seq<Combo>, key: nat): (k: nat)
    ensures k <= |t|
    ensures forall i :: 0 <= i < k ==> t[i].key < key
    ensures k < |t| ==> key <= t[k].key
  {
    if t == [] || key <= t[0].key then 0 else 1 + LowerKey(t[1..], key)
  }

  /** `unchanged_coeffs_i--` on an unsigned index. */
  function Down(u: nat, top: nat): nat {
    if u == 0 then top else u - 1
  }

  /** The entry `demodulate` looks up: the last one that does not start past `c`. */
  function FindCombo(t: seq<Combo>, c: nat): (k: nat)
    requires t != [] && t[0].key == 0
    ensures k < |t|
  {
    var i := LowerKey(t, c);
    if i == |t| || t[i].key != c then i - 1 else i
  }

  /** `upper_bound` on the level ends. */
  function UpperLevel(m: seq<Level>, c: nat): (l: nat)
    ensures l <= |m| && (l < |m| ==> c < m[l].end)
    ensures forall k :: 0 <= k < l ==> m[k].end <= c
  {
    if m == [] || c < m[0].end then 0 else 1 + UpperLevel(m[1..], c)
  }


  lemma FindComboIs(t: seq<Combo>, c: nat, p: nat)
    requires KeysSorted(t) && p < |t| && t[0].key == 0 && t[p].key <= c
    requires forall q :: p < q < |t| ==> c < t[q].key
    ensures FindCombo(t, c) == p
  {
    var i := LowerKey(t, c);
    if p + 1 < |t| { assert c < t[p + 1].key; }
  }

  /** The entry the complexity belongs to. */
  lemma EntryFound(grid: Grid, levels: nat, c: nat, l: nat, k: nat)
    requires GridOk(grid, levels) && c < End(grid, levels)
    requires l == LevelAt(grid, levels, c)
    requires SubsOk(grid, l, Subsets(0, l + 1, |grid|))
    requires c - End(grid, l) < LaySize(grid, l, Subsets(0, l + 1, |grid|))
    requires k == LayIndex(grid, l, Subsets(0, l + 1, |grid|), c - End(grid, l))
    ensures var t := Table(grid, levels);
            t != [] && t[0].key == 0 && t[FindCombo(t, c)] == EntryOf(grid, l, k)
  {
    hide Subsets, LevelSize, LaySize, Table, End, LayIndex, LayBase, FindCombo, KeysSorted;
    var t, subs := Table(grid, levels), Subsets(0, l + 1, |grid|);
    LaySplit(grid, l, subs, c - End(grid, l));
    TableSorted(grid, levels);
    TableEntry(grid, levels, l, k);
    var p := |Table(grid, l)| + k;
    forall q | p < q < |t| ensures c < t[q].key {
      EntryAfter(grid, levels, l, k, c, q);
    }
    FirstKey(grid, levels);
    FindComboIs(t, c, p);
  }

  lemma EntryAfter(grid: Grid, levels: nat, l: nat, k: nat, c: nat, q: nat)
    requires l < levels && GridOk(grid, levels) && k < |Subsets(0, l + 1, |grid|)|
    requires SubOk(grid, l, Subsets(0, l + 1, |grid|)[k])
    requires EntryOf(grid, l, k).key <= c < End(grid, l + 1)
    requires c < EntryOf(grid, l, k).key + Product(Radices(grid, l, Subsets(0, l + 1, |grid|)[k]))
    requires |Table(grid, l)| + k < q < |Table(grid, levels)|
    ensures c < Table(grid, levels)[q].key
  {
    hide Subsets, LevelSize, LaySize, Table, End, SubOk, SubsOk, Product;
    var m, n := TableSplit(grid, levels, q);
    if m < l { TableGrows(grid, m, k, n, l); }
    if m == l {
      LevelSubsOk(grid, l);
      LaySizeMono(grid, l, Subsets(0, l + 1, |grid|), k, n);
    } else {
      EndMono(grid, l + 1, m);
    }
  }

  lemma FirstKey(grid: Grid, levels: nat)
    requires GridOk(grid, levels) && 0 < |Table(grid, levels)|
    ensures Table(grid, levels)[0].key == 0
  {
    hide Table, End, Subsets, LevelSize;
    var l, k := TableSplit(grid, levels, 0);
    EndOfNone(grid, l);
    LevelSubsOk(grid, l);
    assert Subsets(0, l + 1, |grid|)[..0] == [];
  }

  lemma {:induction false} EndOfNone(grid: Grid, levels: nat)
    requires GridOk(grid, levels) && Table(grid, levels) == []
    ensures End(grid, levels) == 0
  {
    if levels > 0 {
      LevelSubsOk(grid, levels - 1);
      LayLength(grid, levels - 1, Subsets(0, levels, |grid|), End(grid, levels - 1));
      EndOfNone(grid, levels - 1);
    }
  }

  /** What `demodulate` reads off the table: the subset, its offsets, and what is left for the digits. */
  lemma FindsEntry(grid: Grid, levels: nat, c: nat)
    requires GridOk(grid, levels) && c < End(grid, levels)
    ensures
      var t, m := Table(grid, levels), Decode(grid, levels, c);
      && t != [] && t[0].key == 0
      && var e := t[FindCombo(t, c)];
      && SubOk(grid, m.level, m.coeffs)
      && var r := Radices(grid, m.level, m.coeffs);
      && e.coeffs == m.coeffs && e.key <= c && c - e.key < Product(r) && m.digits == Digits(r, c - e.key)
      && e.offsets == Offsets(r)
  {
    hide Subsets, LaySize, Table, End, LayIndex, LayBase, FindCombo, LevelAt, Product, Offsets, Digits, SubsOk;
    var l := LevelAt(grid, levels, c);
    EndStep(grid, l);
    LevelSubsOk(grid, l);
    var subs, x := Subsets(0, l + 1, |grid|), c - End(grid, l);
    LaySplit(grid, l, subs, x);
    EntryFound(grid, levels, c, l, LayIndex(grid, l, subs, x));
  }

  lemma {:induction false} UpperLevelIs(m: seq<Level>, c: nat, l: nat)
    requires l < |m| && c < m[l].end && forall k :: 0 <= k < l ==> m[k].end <= c
    ensures UpperLevel(m, c) == l
  {
  }

  lemma FindsLevel(grid: Grid, levels: nat, c: nat)
    requires GridOk(grid, levels) && c < End(grid, levels)
    ensures
      var m, l := Metadata(grid, levels), Decode(grid, levels, c).level;
      UpperLevel(m, c) == l < |m| && m[l].res == LevelRes(grid, l)
  {
    hide Metadata, End, LevelSize, UpperLevel;
    var m, l := Metadata(grid, levels), LevelAt(grid, levels, c);
    forall k | 0 <= k < l ensures m[k].end <= c { EndMono(grid, k + 1, l); }
    UpperLevelIs(m, c, l);
  }

  // ----- The digits -----

  ghost predicate DigitsLeft(r: seq<nat>, digits: seq<nat>, i: nat, base: nat) {
    && i < |r| == |digits| && (forall j :: 0 <= j < |r| ==> r[j] > 0)
    && base < Product(r[..i + 1]) && Digits(r[..i + 1], base) == digits[..i + 1]
  }

  lemma DigitsStart(r: seq<nat>, digits: seq<nat>, base: nat)
    requires 0 < |r| && (forall j :: 0 <= j < |r| ==> r[j] > 0) && base < Product(r) && digits == Digits(r, base)
    ensures DigitsLeft(r, digits, |r| - 1, base)
  {
    assert r[..|r|] == r && digits[..|r|] == digits;
  }

  lemma PeelDigit(r: seq<nat>, digits: seq<nat>, i: nat, base: nat)
    requires 0 < i && DigitsLeft(r, digits, i, base)
    ensures
      var p := Product(r[..i]);
      && p > 0 && base / p == digits[i] < r[i] && base / p * p <= base
      && DigitsLeft(r, digits, i - 1, base - base / p * p)
  {
    ProductPositive(r[..i]);
    assert r[..i + 1][..i] == r[..i];
    SplitTop(base, Product(r[..i]), r[i]);
    assert digits[..i + 1][..i] == digits[..i];
  }

  lemma LastDigit(r: seq<nat>, digits: seq<nat>, base: nat)
    requires DigitsLeft(r, digits, 0, base)
    ensures base == digits[0] < r[0]
  {
    assert r[..1] == [r[0]] && r[..1][..0] == [];
    assert digits[..1][0] == digits[0];
    assert Product(r[..1]) == Product([]) * r[0];
  }

  lemma OffsetAt(r: seq<nat>, i: nat)
    requires 0 < i < |r|
    ensures i - 1 < |Offsets(r)| && Offsets(r)[i - 1] == Product(r[..i])
  {
  }

  // ----- Where a run stands -----

  /** What has ended does not move. */
  ghost predicate EndedAtRest(all: seq<Coefficient>) {
    forall j :: 0 <= j < |all| && all[j].ended ==> all[j].tmp == all[j].now
  }

  /** And, at a server, stands at index zero. */
  ghost predicate EndedAtZero(all: seq<Coefficient>) {
    forall j :: 0 <= j < |all| && all[j].ended ==> all[j].now == 0
  }

  /** The table is over these lists, which may go on further than those of the coefficients. */
  ghost predicate Headed(grid: Grid, all: seq<Coefficient>) {
    && |grid| == |all|
    && forall j :: 0 <= j < |all| ==> all[j].resolutions != [] && grid[j] != [] && grid[j][0] == all[j].resolutions[0]
  }

  function Countdown(n: nat, u: nat): seq<nat>
    requires u <= n
  {
    seq(n - u, i requires 0 <= i < n - u => n - 1 - i)
  }

  /** The coefficients from `u` on have been called exactly once, downwards, and stand where the move puts them; their
      contribution has been added to the offset; the others are untouched. */
  ghost predicate Moved(grid: Grid, m: Move, was: seq<Coefficient>, start: nat, calls: seq<nat>,
                        now: seq<Coefficient>, offset: nat, called: seq<nat>, u: nat) {
    && Headed(grid, was) && GridOk(grid, m.level + 1) && |m.digits| == |m.coeffs|
    && u <= |was| == |now|
    && (forall j :: 0 <= j < |was| ==>
          now[j] == if j < u then was[j] else was[j].(tmp := TargetAt(grid, m, Ended(was), Now(was), j)))
    && (EndedAtZero(was) ==> offset == start + Collected(now, u))
    && called == calls + Countdown(|was|, u)
  }

  lemma MovedStart(grid: Grid, m: Move, was: seq<Coefficient>, start: nat, calls: seq<nat>)
    requires Headed(grid, was) && GridOk(grid, m.level + 1) && |m.digits| == |m.coeffs|
    ensures Moved(grid, m, was, start, calls, was, start, calls, |was|)
  {
    assert Countdown(|was|, |was|) == [];
  }

  lemma {:induction false} CollectedSame(a: seq<Coefficient>, b: seq<Coefficient>, u: nat)
    requires |a| == |b| && u <= |a| && forall j :: u <= j < |a| ==> a[j] == b[j]
    ensures Collected(a, u) == Collected(b, u)
    decreases |a| - u
  {
    if u < |a| { CollectedSame(a, b, u + 1); }
  }

  lemma MovedStep(grid: Grid, m: Move, was: seq<Coefficient>, start: nat, calls: seq<nat>,
                  now: seq<Coefficient>, offset: nat, called: seq<nat>, u: nat, v: nat, added: nat)
    requires Moved(grid, m, was, start, calls, now, offset, called, u + 1)
    requires v == TargetAt(grid, m, Ended(was), Now(was), u)
    requires EndedAtZero(was) ==> added == now[u].place * v
    ensures Moved(grid, m, was, start, calls, now[u := now[u].(tmp := v)], offset + added, called + [u], u)
  {
    hide TargetAt, EndedAtZero, Headed;
    var next := now[u := now[u].(tmp := v)];
    CollectedSame(now, next, u + 1);
    assert Countdown(|was|, u) == Countdown(|was|, u + 1) + [u];
  }

  /** `value_reset` on a coefficient that is not moved. */
  lemma MovedReset(grid: Grid, m: Move, was: seq<Coefficient>, start: nat, calls: seq<nat>,
                   now: seq<Coefficient>, offset: nat, called: seq<nat>, u: nat)
    requires Moved(grid, m, was, start, calls, now, offset, called, u + 1) && u !in m.coeffs
    ensures u < |now| && Moved(grid, m, was, start, calls, now[u := now[u].(tmp := now[u].now)],
                               offset + now[u].place * now[u].now, called + [u], u)
  {
    MovedStep(grid, m, was, start, calls, now, offset, called, u, now[u].now, now[u].place * now[u].now);
  }

  lemma {:induction false} IndexOf(s: seq<nat>, i: nat)
    requires i < |s| && forall a, b :: 0 <= a < b < |s| ==> s[a] < s[b]
    ensures s[i] in s && IndexIn(s, s[i]) == i
  {
    var k := IndexIn(s, s[i]);
  }

  lemma MovedCoeff(grid: Grid, levels: nat, m: Move, i: nat)
    requires GridOk(grid, levels) && MoveOk(grid, levels, m) && i < |m.coeffs|
    ensures GridOk(grid, m.level + 1) && |m.digits| == |m.coeffs| && m.coeffs[i] < |grid|
    ensures m.level < |grid[m.coeffs[i]]| && m.coeffs[i] in m.coeffs && IndexIn(m.coeffs, m.coeffs[i]) == i
    ensures m.digits[i] < Res(grid, m.coeffs[i], m.level)
  {
    hide Subsets;
    SubsetsSound(0, m.level + 1, |grid|, m.index);
    IndexOf(m.coeffs, i);
    assert m.digits[i] < Radices(grid, m.level, m.coeffs)[i];
  }

  /** `value_from_grid` on the `i`-th moved coefficient. */
  lemma MovedGrid(grid: Grid, levels: nat, m: Move, was: seq<Coefficient>, start: nat, calls: seq<nat>,
                  now: seq<Coefficient>, offset: nat, called: seq<nat>, i: nat)
    requires GridOk(grid, levels) && MoveOk(grid, levels, m) && Headed(grid, was) && i < |m.coeffs|
    requires EndedAtRest(was)
    requires m.coeffs[i] < |was| && Moved(grid, m, was, start, calls, now, offset, called, m.coeffs[i] + 1)
    ensures
      var u := m.coeffs[i];
      && u < |now| && |m.digits| == |m.coeffs| && m.level < |grid[u]| && GridOk(grid, m.level + 1)
      && now[u].resolutions != [] && m.digits[i] < Res(grid, u, m.level) == LevelRes(grid, m.level)[u]
      && var v := if now[u].ended then now[u].tmp else Rescale(m.digits[i], Res(grid, u, m.level), now[u].resolutions[0]);
      && Moved(grid, m, was, start, calls, now[u := now[u].(tmp := v)],
               offset + (if now[u].ended then 0 else now[u].place * v), called + [u], u)
  {
    hide MoveOk, Moved, Res;
    MovedCoeff(grid, levels, m, i);
    var u := m.coeffs[i];
    MovedHere(grid, m, was, start, calls, now, offset, called, u);
    var v := if now[u].ended then now[u].tmp else Rescale(m.digits[i], Res(grid, u, m.level), grid[u][0]);
    MovedStep(grid, m, was, start, calls, now, offset, called, u, v, if now[u].ended then 0 else now[u].place * v);
  }

  lemma MovedHere(grid: Grid, m: Move, was: seq<Coefficient>, start: nat, calls: seq<nat>,
                  now: seq<Coefficient>, offset: nat, called: seq<nat>, u: nat)
    requires u < |was| && Moved(grid, m, was, start, calls, now, offset, called, u + 1)
    ensures u < |now| && now[u] == was[u]
  {
  }

  lemma BetweenCoeffs(coeffs: seq<nat>, i: nat, u: nat)
    requires i < |coeffs| && forall a, b :: 0 <= a < b < |coeffs| ==> coeffs[a] < coeffs[b]
    requires forall k :: i < k < |coeffs| ==> u < coeffs[k]
    ensures forall j :: coeffs[i] < j <= u ==> j !in coeffs
  {
  }

  lemma HeadedSize(grid: Grid, all: seq<Coefficient>)
    requires Headed(grid, all)
    ensures |grid| == |all|
  {
  }

  lemma MoveFacts(grid: Grid, levels: nat, m: Move)
    requires GridOk(grid, levels) && MoveOk(grid, levels, m)
    ensures GridOk(grid, m.level + 1) && m.level < levels && |m.digits| == |m.coeffs| == m.level + 1
    ensures SubOk(grid, m.level, m.coeffs) && Increasing(m.coeffs, 0, |grid|) && 1 <= |grid|
  {
    hide Subsets;
    SubsetsSound(0, m.level + 1, |grid|, m.index);
    assert m.coeffs[0] < |grid|;
  }

  /** After a whole run: every coefficient was set or reset once, the working point is the position of the complexity,
      and, where what has ended stands at index zero, the code of that position has been added to the offset. */
  lemma MovedAll(grid: Grid, levels: nat, c: nat, was: seq<Coefficient>, start: nat, calls: seq<nat>,
                 now: seq<Coefficient>, offset: nat, called: seq<nat>)
    requires GridOk(grid, levels) && c < End(grid, levels) && PlacesOk(was)
    requires Moved(grid, Decode(grid, levels, c), was, start, calls, now, offset, called, 0)
    ensures |now| == |was| == |grid| && forall j :: 0 <= j < |grid| ==> grid[j] != []
    ensures Tmp(now) == Position(grid, levels, Ended(was), Now(was), c)
    ensures forall j :: 0 <= j < |was| ==> now[j] == was[j].(tmp := now[j].tmp)
    ensures EndedAtZero(was) ==> offset == start + Code(First(grid), Position(grid, levels, Ended(was), Now(was), c))
    ensures called == calls + Countdown(|was|, 0)
  {
    hide Decode, End, TargetAt;
    assert GridOf(now) == GridOf(was);
    assert First(GridOf(now)) == First(grid);
    assert PlacesOk(now);
    CollectedIsCode(now);
    assert Tmp(now) == Position(grid, levels, Ended(was), Now(was), c);
  }
}
