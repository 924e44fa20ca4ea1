/** What a complexity stands for: a level, a subset of coefficients, a digit for each of them, and so a grid point
    around the centre. Encoding and decoding are inverse. */
module Positions {
  import opened Arithmetic
  import opened Combos
  import opened Coefficients

  // ----- Within one level -----

  ghost function LayIndex(grid: Grid, l: nat, subs: seq<seq<nat>>, x: nat): (i: nat)
    requires SubsOk(grid, l, subs) && x < LaySize(grid, l, subs)
    ensures i < |subs|
  {
    assert SubOk(grid, l, subs[0]);
    var size := Product(Radices(grid, l, subs[0]));
    if x < size then 0 else 1 + LayIndex(grid, l, subs[1..], x - size)
  }

  ghost function LayBase(grid: Grid, l: nat, subs: seq<seq<nat>>, x: nat): nat
    requires SubsOk(grid, l, subs) && x < LaySize(grid, l, subs)
  {
    assert SubOk(grid, l, subs[0]);
    var size := Product(Radices(grid, l, subs[0]));
    if x < size then x else LayBase(grid, l, subs[1..], x - size)
  }

  /** The interval of subset `i` starts after the sizes of those before it. */
  lemma {:induction false} LaySplit(grid: Grid, l: nat, subs: seq<seq<nat>>, x: nat)
    requires SubsOk(grid, l, subs) && x < LaySize(grid, l, subs)
    ensures
      var i := LayIndex(grid, l, subs, x);
      && SubOk(grid, l, subs[i]) && SubsOk(grid, l, subs[..i])
      && LayBase(grid, l, subs, x) < Product(Radices(grid, l, subs[i]))
      && LaySize(grid, l, subs[..i]) + LayBase(grid, l, subs, x) == x
    decreases |subs|
  {
    hide Product, Radices, SubOk;
    assert SubOk(grid, l, subs[0]);
    var size := Product(Radices(grid, l, subs[0]));
    if x >= size {
      LaySplit(grid, l, subs[1..], x - size);
      var i := LayIndex(grid, l, subs, x);
      assert subs[..i][1..] == subs[1..][..i - 1];
    }
  }

  lemma {:induction false} LayJoin(grid: Grid, l: nat, subs: seq<seq<nat>>, i: nat, base: nat)
    requires SubsOk(grid, l, subs) && i < |subs|
    requires SubOk(grid, l, subs[i]) && base < Product(Radices(grid, l, subs[i]))
    ensures SubsOk(grid, l, subs[..i])
    ensures
      var x := LaySize(grid, l, subs[..i]) + base;
      && x < LaySize(grid, l, subs)
      && LayIndex(grid, l, subs, x) == i && LayBase(grid, l, subs, x) == base
    decreases i
  {
    if i > 0 {
      LayJoin(grid, l, subs[1..], i - 1, base);
      assert subs[..i][1..] == subs[1..][..i - 1];
    }
  }

  lemma {:induction false} LayEntry(grid: Grid, l: nat, subs: seq<seq<nat>>, key: nat, i: nat)
    requires SubsOk(grid, l, subs) && i < |subs|
    ensures SubOk(grid, l, subs[i]) && SubsOk(grid, l, subs[..i])
    ensures |Lay(grid, l, subs, key)| == |subs|
    ensures Lay(grid, l, subs, key)[i]
         == Combo(key + LaySize(grid, l, subs[..i]), subs[i], Offsets(Radices(grid, l, subs[i])))
    decreases i
  {
    LayLength(grid, l, subs, key);
    if i > 0 {
      LayEntry(grid, l, subs[1..], key + Product(Radices(grid, l, subs[0])), i - 1);
      assert subs[..i][1..] == subs[1..][..i - 1];
    }
  }

  lemma LayLength(grid: Grid, l: nat, subs: seq<seq<nat>>, key: nat)
    requires SubsOk(grid, l, subs)
    ensures |Lay(grid, l, subs, key)| == |subs|
    decreases |subs|
  {
    if subs != [] { LayLength(grid, l, subs[1..], key + Product(Radices(grid, l, subs[0]))); }
  }

  // ----- Across levels -----

  lemma EndStep(grid: Grid, l: nat)
    requires GridOk(grid, l + 1)
    ensures End(grid, 0) == 0 && End(grid, l + 1) == End(grid, l) + LevelSize(grid, l)
  {
  }

  lemma {:induction false} EndMono(grid: Grid, l: nat, m: nat)
    requires l <= m && GridOk(grid, m)
    ensures End(grid, l) <= End(grid, m)
    decreases m - l
  {
    hide LevelSize;
    if l < m { EndMono(grid, l, m - 1); }
  }

  lemma LevelsBelow(grid: Grid, levels: nat, c: nat)
    requires GridOk(grid, levels) && c < End(grid, levels)
    ensures levels > 0 && GridOk(grid, levels - 1)
  {
  }

  /** The level a complexity belongs to: the first whose end lies past it. */
  ghost function LevelAt(grid: Grid, levels: nat, c: nat): (l: nat)
    requires GridOk(grid, levels) && c < End(grid, levels)
    ensures l < levels && End(grid, l) <= c < End(grid, l + 1)
  {
    hide LevelSize, End, GridOk;
    LevelsBelow(grid, levels, c);
    if End(grid, levels - 1) <= c then levels - 1 else LevelAt(grid, levels - 1, c)
  }

  /** A complexity taken apart. */
  datatype Move = Move(level: nat, index: nat, coeffs: seq<nat>, digits: seq<nat>)

  ghost predicate MoveOk(grid: Grid, levels: nat, m: Move)
    requires GridOk(grid, levels)
  {
    && m.level < levels
    && m.index < |Subsets(0, m.level + 1, |grid|)| && m.coeffs == Subsets(0, m.level + 1, |grid|)[m.index]
    && SubOk(grid, m.level, m.coeffs)
    && DigitsOk(Radices(grid, m.level, m.coeffs), m.digits)
  }

  lemma SpotOk(grid: Grid, l: nat, x: nat)
    requires GridOk(grid, l + 1) && x < LevelSize(grid, l)
    ensures
      var subs := Subsets(0, l + 1, |grid|);
      && SubsOk(grid, l, subs) && x < LaySize(grid, l, subs)
      && var i, base := LayIndex(grid, l, subs, x), LayBase(grid, l, subs, x);
      && SubOk(grid, l, subs[i]) && (forall k :: 0 <= k < |Radices(grid, l, subs[i])| ==> Radices(grid, l, subs[i])[k] > 0)
      && MoveOk(grid, l + 1, Move(l, i, subs[i], Digits(Radices(grid, l, subs[i]), base)))
  {
    hide Subsets, LaySize, LayIndex, LayBase, Digits, SubsOk, SubOk, DigitsOk, Product;
    LevelSubsOk(grid, l);
    var subs := Subsets(0, l + 1, |grid|);
    LaySplit(grid, l, subs, x);
    DigitsThenNumber(Radices(grid, l, subs[LayIndex(grid, l, subs, x)]), LayBase(grid, l, subs, x));
  }

  /** Decoding within level `l`. */
  ghost function Spot(grid: Grid, l: nat, x: nat): (m: Move)
    requires GridOk(grid, l + 1) && x < LevelSize(grid, l)
    ensures MoveOk(grid, l + 1, m) && m.level == l
  {
    hide *;
    SpotOk(grid, l, x);
    var subs := Subsets(0, l + 1, |grid|);
    var i := LayIndex(grid, l, subs, x);
    Move(l, i, subs[i], Digits(Radices(grid, l, subs[i]), LayBase(grid, l, subs, x)))
  }

  /** Encoding within a level: start of the subset's interval plus the sum of digit times offset. */
  ghost function SpotNumber(grid: Grid, m: Move): nat
    requires GridOk(grid, m.level + 1) && MoveOk(grid, m.level + 1, m)
  {
    LevelSubsOk(grid, m.level);
    LayEntry(grid, m.level, Subsets(0, m.level + 1, |grid|), 0, m.index);
    LaySize(grid, m.level, Subsets(0, m.level + 1, |grid|)[..m.index])
      + Number(Radices(grid, m.level, m.coeffs), m.digits)
  }

  lemma SpotThenNumber(grid: Grid, l: nat, x: nat)
    requires GridOk(grid, l + 1) && x < LevelSize(grid, l)
    ensures SpotNumber(grid, Spot(grid, l, x)) == x
  {
    hide Subsets, LaySize, LayIndex, LayBase, Number, Digits, SubsOk, SubOk;
    LevelSubsOk(grid, l);
    var subs := Subsets(0, l + 1, |grid|);
    LaySplit(grid, l, subs, x);
    DigitsThenNumber(Radices(grid, l, subs[LayIndex(grid, l, subs, x)]), LayBase(grid, l, subs, x));
  }

  lemma NumberThenSpot(grid: Grid, m: Move)
    requires GridOk(grid, m.level + 1) && MoveOk(grid, m.level + 1, m)
    ensures SpotNumber(grid, m) < LevelSize(grid, m.level) && Spot(grid, m.level, SpotNumber(grid, m)) == m
  {
    hide Subsets, LaySize, LayIndex, LayBase, Number, Digits, SubsOk, SubOk, DigitsOk, Product;
    LevelSubsOk(grid, m.level);
    var r := Radices(grid, m.level, m.coeffs);
    NumberThenDigits(r, m.digits);
    LayJoin(grid, m.level, Subsets(0, m.level + 1, |grid|), m.index, Number(r, m.digits));
  }

  ghost function Decode(grid: Grid, levels: nat, c: nat): (m: Move)
    requires GridOk(grid, levels) && c < End(grid, levels)
    ensures MoveOk(grid, levels, m)
  {
    var l := LevelAt(grid, levels, c);
    Spot(grid, l, c - End(grid, l))
  }

  ghost function Encode(grid: Grid, levels: nat, m: Move): nat
    requires GridOk(grid, levels) && MoveOk(grid, levels, m)
  {
    End(grid, m.level) + SpotNumber(grid, m)
  }

  /** Every complexity below the total decodes to a subset and in-range digits that encode to it. */
  lemma DecodeThenEncode(grid: Grid, levels: nat, c: nat)
    requires GridOk(grid, levels) && c < End(grid, levels)
    ensures Encode(grid, levels, Decode(grid, levels, c)) == c
  {
    hide Spot, SpotNumber, LevelSize, MoveOk;
    var l := LevelAt(grid, levels, c);
    SpotThenNumber(grid, l, c - End(grid, l));
  }

  /** Every subset with in-range digits has its complexity, in the interval of its level. */
  lemma EncodeThenDecode(grid: Grid, levels: nat, m: Move)
    requires GridOk(grid, levels) && MoveOk(grid, levels, m)
    ensures End(grid, m.level) <= Encode(grid, levels, m) < End(grid, m.level + 1) <= End(grid, levels)
    ensures Decode(grid, levels, Encode(grid, levels, m)) == m
  {
    hide Spot, SpotNumber, LevelSize, LevelAt, DigitsOk, SubOk, Subsets, End;
    EndStep(grid, m.level);
    NumberThenSpot(grid, m);
    EndMono(grid, m.level + 1, levels);
    LevelUnique(grid, levels, Encode(grid, levels, m), m.level);
  }

  lemma LevelUnique(grid: Grid, levels: nat, c: nat, l: nat)
    requires GridOk(grid, levels) && c < End(grid, levels)
    requires l < levels && End(grid, l) <= c < End(grid, l + 1)
    ensures LevelAt(grid, levels, c) == l
  {
    hide End;
    var k := LevelAt(grid, levels, c);
    if k < l { EndMono(grid, k + 1, l); }
    if l < k { EndMono(grid, l + 1, k); }
  }

  /** Moves compare by level, then by their coefficients in lexicographic order, then by their digits, the last one first. */
  ghost predicate Before(m: Move, n: Move)
    requires |m.digits| == |m.coeffs| && |n.digits| == |n.coeffs|
  {
    || m.level < n.level
    || (m.level == n.level && LexLess(m.coeffs, n.coeffs))
    || (m.level == n.level && m.coeffs == n.coeffs && DigitsBefore(m.digits, n.digits))
  }

  /** Complexities number the moves in that order: with the decoding this says which move has which number. */
  lemma EncodeOrdered(grid: Grid, levels: nat, m: Move, n: Move)
    requires GridOk(grid, levels) && MoveOk(grid, levels, m) && MoveOk(grid, levels, n)
    ensures |m.digits| == |m.coeffs| && |n.digits| == |n.coeffs|
    ensures Encode(grid, levels, m) < Encode(grid, levels, n) <==> Before(m, n)
  {
    hide Encode, LexLess, DigitsBefore, SubOk, Subsets;
    if m.level != n.level {
      LevelsOrdered(grid, levels, m, n);
    } else if m.index != n.index {
      SubsetsOrdered(grid, levels, m, n);
    } else if m.digits != n.digits {
      DigitsOrdered(grid, levels, m, n);
    } else {
      NotBefore(m.coeffs, m.digits);
    }
  }

  lemma NotBefore(coeffs: seq<nat>, digits: seq<nat>)
    ensures !LexLess(coeffs, coeffs) && !DigitsBefore(digits, digits)
  {
  }

  lemma LevelsOrdered(grid: Grid, levels: nat, m: Move, n: Move)
    requires GridOk(grid, levels) && MoveOk(grid, levels, m) && MoveOk(grid, levels, n) && m.level != n.level
    ensures Encode(grid, levels, m) < Encode(grid, levels, n) <==> m.level < n.level
  {
    hide Encode, Decode, End, MoveOk;
    LevelsApart(grid, levels, m);
    LevelsApart(grid, levels, n);
    if m.level < n.level { EndMono(grid, m.level + 1, n.level); } else { EndMono(grid, n.level + 1, m.level); }
  }

  lemma LevelsApart(grid: Grid, levels: nat, m: Move)
    requires GridOk(grid, levels) && MoveOk(grid, levels, m)
    ensures m.level < levels && End(grid, m.level) <= Encode(grid, levels, m) < End(grid, m.level + 1)
  {
    EncodeThenDecode(grid, levels, m);
  }

  lemma SubsetsOrdered(grid: Grid, levels: nat, m: Move, n: Move)
    requires GridOk(grid, levels) && MoveOk(grid, levels, m) && MoveOk(grid, levels, n)
    requires m.level == n.level && m.index != n.index
    ensures Encode(grid, levels, m) < Encode(grid, levels, n) <==> LexLess(m.coeffs, n.coeffs)
    ensures m.coeffs != n.coeffs
  {
    hide LexLess, Subsets, SubOk, LaySize, Number, Product, Radices;
    if m.index < n.index { SubsetBefore(grid, levels, m, n); } else { SubsetBefore(grid, levels, n, m); }
  }

  lemma SubsetBefore(grid: Grid, levels: nat, m: Move, n: Move)
    requires GridOk(grid, levels) && MoveOk(grid, levels, m) && MoveOk(grid, levels, n)
    requires m.level == n.level && m.index < n.index
    ensures Encode(grid, levels, m) < Encode(grid, levels, n) && m.coeffs != n.coeffs
    ensures LexLess(m.coeffs, n.coeffs) && !LexLess(n.coeffs, m.coeffs)
  {
    hide LexLess, Subsets, LaySize, Number, Product, Radices, DigitsOk;
    var l, subs := m.level, Subsets(0, m.level + 1, |grid|);
    LevelSubsOk(grid, l);
    SubsetsSorted(0, l + 1, |grid|, m.index, n.index);
    LexOneWay(m.coeffs, n.coeffs);
    LaySizeMono(grid, l, subs, m.index, n.index);
    NumberThenDigits(Radices(grid, l, m.coeffs), m.digits);
  }

  lemma LexOneWay(a: seq<nat>, b: seq<nat>)
    requires LexLess(a, b)
    ensures a != b && !LexLess(b, a)
  {
    var i :| 0 <= i < |a| && i < |b| && a[..i] == b[..i] && a[i] < b[i];
    forall j | 0 <= j < |b| && j < |a| ensures b[..j] != a[..j] || a[j] <= b[j] {
      if i < j { assert a[..j][i] < b[..j][i]; } else if j < i { assert a[..i][j] == b[..i][j]; }
    }
  }

  lemma DigitsOrdered(grid: Grid, levels: nat, m: Move, n: Move)
    requires GridOk(grid, levels) && MoveOk(grid, levels, m) && MoveOk(grid, levels, n)
    requires m.level == n.level && m.index == n.index && m.digits != n.digits
    ensures m.coeffs == n.coeffs && |m.digits| == |n.digits| == |m.coeffs| && !LexLess(m.coeffs, n.coeffs)
    ensures Encode(grid, levels, m) < Encode(grid, levels, n) <==> DigitsBefore(m.digits, n.digits)
  {
    hide Subsets, LaySize, Number, Product, Radices, DigitsBefore, SubOk;
    var r := Radices(grid, m.level, m.coeffs);
    SomeBefore(m.digits, n.digits);
    if DigitsBefore(m.digits, n.digits) { NumberGrows(r, m.digits, n.digits); }
    if DigitsBefore(n.digits, m.digits) { NumberGrows(r, n.digits, m.digits); }
  }

  // ----- The grid point of a complexity -----

  /** What the server asserts of resolutions: no level is finer than the first, and the first has at least two steps. */
  ghost predicate FineGrid(grid: Grid, levels: nat) {
    && 1 <= levels <= |grid| && GridOk(grid, levels)
    && forall j, l :: 0 <= j < |grid| && 0 <= l < levels ==> Res(grid, j, l) <= grid[j][0]
  }

  function IndexIn(s: seq<nat>, x: nat): (i: nat)
    requires x in s
    ensures i < |s| && s[i] == x
  {
    if s[0] == x then 0 else 1 + IndexIn(s[1..], x)
  }

  /** Where coefficient `j` goes: along its grid if it is moved and still free, else it stays at the centre. */
  ghost function TargetAt(grid: Grid, m: Move, ended: seq<bool>, centre: seq<nat>, j: nat): nat
    requires |ended| == |centre| == |grid| && |m.digits| == |m.coeffs| && j < |grid| && m.level < |grid[j]|
  {
    if j in m.coeffs && !ended[j] then Rescale(m.digits[IndexIn(m.coeffs, j)], Res(grid, j, m.level), grid[j][0])
    else centre[j]
  }

  ghost function Target(grid: Grid, m: Move, ended: seq<bool>, centre: seq<nat>): (p: seq<nat>)
    requires |ended| == |centre| == |grid| && |m.digits| == |m.coeffs| && GridOk(grid, m.level + 1)
    ensures |p| == |grid| && forall j :: 0 <= j < |grid| ==> p[j] == TargetAt(grid, m, ended, centre, j)
  {
    seq(|grid|, j requires 0 <= j < |grid| => TargetAt(grid, m, ended, centre, j))
  }

  ghost function Position(grid: Grid, levels: nat, ended: seq<bool>, centre: seq<nat>, c: nat): (p: seq<nat>)
    requires |ended| == |centre| == |grid| && GridOk(grid, levels) && c < End(grid, levels)
  {
    Target(grid, Decode(grid, levels, c), ended, centre)
  }

  lemma TargetInRange(grid: Grid, levels: nat, m: Move, ended: seq<bool>, centre: seq<nat>)
    requires FineGrid(grid, levels) && MoveOk(grid, levels, m) && |ended| == |grid|
    requires InRange(First(grid), centre)
    ensures InRange(First(grid), Target(grid, m, ended, centre))
  {
    hide TargetAt, Subsets;
    forall j | 0 <= j < |grid| ensures TargetAt(grid, m, ended, centre, j) < grid[j][0] {
      MoveInRange(grid, levels, m, ended, centre, j);
    }
    InRangeFrom(First(grid), Target(grid, m, ended, centre));
  }

  lemma InRangeFrom(res: seq<nat>, p: seq<nat>)
    requires |res| == |p| && forall c :: 0 <= c < |res| ==> p[c] < res[c]
    ensures InRange(res, p)
  {
  }

  lemma MoveInRange(grid: Grid, levels: nat, m: Move, ended: seq<bool>, centre: seq<nat>, j: nat)
    requires FineGrid(grid, levels) && MoveOk(grid, levels, m) && |ended| == |grid| && j < |grid|
    requires InRange(First(grid), centre)
    ensures TargetAt(grid, m, ended, centre, j) < grid[j][0]
  {
    if j in m.coeffs && !ended[j] {
      RescaleBelow(m.digits[IndexIn(m.coeffs, j)], Res(grid, j, m.level), grid[j][0]);
    } else {
      assert centre[j] < First(grid)[j];
    }
  }

  /** Building again with the sizes a build returned gives the same levels. */
  lemma {:induction false} RebuildSame(grid: Grid, limit: nat, atOnce: nat)
    requires GridOk(grid, atOnce)
    ensures var levels := Fitting(grid, limit, atOnce, 0);
            GridOk(grid, levels) && Fitting(grid, End(grid, levels), levels, 0) == levels
  {
    hide End;
    var levels := Fitting(grid, limit, atOnce, 0);
    FittingAll(grid, levels, 0);
  }

  lemma {:induction false} FittingAll(grid: Grid, levels: nat, l: nat)
    requires GridOk(grid, levels) && l <= levels
    ensures Fitting(grid, End(grid, levels), levels, l) == levels
    decreases levels - l
  {
    hide End;
    if l < levels {
      EndMono(grid, l + 1, levels);
      FittingAll(grid, levels, l + 1);
    }
  }

  // ----- The table as an ordered map -----

  lemma {:induction false} LaySizeMono(grid: Grid, l: nat, subs: seq<seq<nat>>, i: nat, j: nat)
    requires SubsOk(grid, l, subs) && i < j <= |subs|
    ensures SubsOk(grid, l, subs[..i]) && SubsOk(grid, l, subs[..j]) && SubOk(grid, l, subs[i])
    ensures LaySize(grid, l, subs[..i]) + Product(Radices(grid, l, subs[i])) <= LaySize(grid, l, subs[..j])
    ensures LaySize(grid, l, subs[..j]) <= LaySize(grid, l, subs)
    ensures Product(Radices(grid, l, subs[i])) > 0
  {
    assert subs[..j] == subs[..i] + ([subs[i]] + subs[i + 1..j]);
    assert subs == subs[..j] + subs[j..];
    assert SubsOk(grid, l, [subs[i]]) && SubsOk(grid, l, subs[i + 1..j]) && SubsOk(grid, l, subs[..i]);
    ProductPositive(Radices(grid, l, subs[i]));
    hide SubsOk, SubOk;
    LayConcat(grid, l, subs[..i], [subs[i]] + subs[i + 1..j], 0);
    LayConcat(grid, l, [subs[i]], subs[i + 1..j], 0);
    LayConcat(grid, l, subs[..j], subs[j..], 0);
  }

  /** Entry `k` of level `l`. */
  ghost function EntryOf(grid: Grid, l: nat, k: nat): (e: Combo)
    requires GridOk(grid, l + 1) && k < |Subsets(0, l + 1, |grid|)|
    ensures End(grid, l) <= e.key < End(grid, l + 1)
  {
    LevelSubsOk(grid, l);
    var subs := Subsets(0, l + 1, |grid|);
    LaySizeMono(grid, l, subs, k, |subs|);
    assert subs[..|subs|] == subs;
    Combo(End(grid, l) + LaySize(grid, l, subs[..k]), subs[k], Offsets(Radices(grid, l, subs[k])))
  }

  lemma {:induction false} TableEntry(grid: Grid, levels: nat, l: nat, k: nat)
    requires l < levels && GridOk(grid, levels) && k < |Subsets(0, l + 1, |grid|)|
    ensures |Table(grid, l)| + k < |Table(grid, levels)|
    ensures Table(grid, levels)[|Table(grid, l)| + k] == EntryOf(grid, l, k)
    decreases levels
  {
    hide Subsets, LevelSize;
    if l == levels - 1 {
      LevelSubsOk(grid, l);
      LayEntry(grid, l, Subsets(0, l + 1, |grid|), End(grid, l), k);
    } else {
      TableEntry(grid, levels - 1, l, k);
    }
  }

  lemma {:induction false} TableSplit(grid: Grid, levels: nat, i: nat) returns (l: nat, k: nat)
    requires GridOk(grid, levels) && i < |Table(grid, levels)|
    ensures l < levels && k < |Subsets(0, l + 1, |grid|)| && i == |Table(grid, l)| + k
    ensures Table(grid, levels)[i] == EntryOf(grid, l, k)
    decreases levels
  {
    hide Subsets, LevelSize;
    if i < |Table(grid, levels - 1)| {
      l, k := TableSplit(grid, levels - 1, i);
    } else {
      l, k := levels - 1, i - |Table(grid, levels - 1)|;
      LevelSubsOk(grid, l);
      LayLength(grid, l, Subsets(0, levels, |grid|), End(grid, l));
    }
    TableEntry(grid, levels, l, k);
  }

  ghost predicate KeysSorted(t: seq<Combo>) {
    forall i, j :: 0 <= i < j < |t| ==> t[i].key < t[j].key
  }

  lemma EntryOrder(grid: Grid, l: nat, k: nat, m: nat, n: nat)
    requires GridOk(grid, l + 1) && k < |Subsets(0, l + 1, |grid|)|
    requires GridOk(grid, m + 1) && n < |Subsets(0, m + 1, |grid|)|
    requires l < m || (l == m && k < n)
    ensures EntryOf(grid, l, k).key < EntryOf(grid, m, n).key
  {
    hide Subsets, LevelSize, LaySize;
    if l < m {
      EndMono(grid, l + 1, m);
    } else {
      LevelSubsOk(grid, l);
      LaySizeMono(grid, l, Subsets(0, l + 1, |grid|), k, n);
    }
  }

  /** Keys increase, so the sequence is the ordered map; each is below the total. */
  lemma TableSorted(grid: Grid, levels: nat)
    requires GridOk(grid, levels)
    ensures KeysSorted(Table(grid, levels))
    ensures forall i :: 0 <= i < |Table(grid, levels)| ==> Table(grid, levels)[i].key < End(grid, levels)
  {
    hide Subsets, LevelSize, Table, EntryOf, End;
    forall i | 0 <= i < |Table(grid, levels)| ensures Table(grid, levels)[i].key < End(grid, levels) {
      var l, k := TableSplit(grid, levels, i);
      EndMono(grid, l + 1, levels);
    }
    forall i, j | 0 <= i < j < |Table(grid, levels)|
      ensures Table(grid, levels)[i].key < Table(grid, levels)[j].key
    {
      var l, k := TableSplit(grid, levels, i);
      var m, n := TableSplit(grid, levels, j);
      if m < l { TableGrows(grid, m, k, n, l); }
      EntryOrder(grid, l, k, m, n);
    }
  }

  lemma {:induction false} TableGrows(grid: Grid, m: nat, k: nat, n: nat, l: nat)
    requires m < l && GridOk(grid, l) && n < |Subsets(0, m + 1, |grid|)|
    ensures |Table(grid, m)| + n < |Table(grid, l)| + k
  {
    TableEntry(grid, l, m, n);
  }
}
