/** The complexity codec: every way of moving some coefficients along their grids while the others stay at the
    centre, laid out level by level (one coefficient at a time, then two, ...) on one integer line. */
module Combos {
  import opened Arithmetic

  /** `grid[c][l]` is the resolution of coefficient `c` when `l + 1` coefficients move at once. */
  type Grid = seq<seq<nat>>

  ghost predicate GridOk(grid: Grid, levels: nat) {
    forall c :: 0 <= c < |grid| ==> levels <= |grid[c]|
  }

  function Res(grid: Grid, c: nat, l: nat): nat
    requires c < |grid| && l < |grid[c]|
  {
    if grid[c][l] < 2 then 2 else grid[c][l]
  }

  /** A resolution below two counts as two. */
  lemma ResIs(grid: Grid, c: nat, l: nat)
    requires c < |grid| && l < |grid[c]|
    ensures Res(grid, c, l) >= 2 && Res(grid, c, l) >= grid[c][l]
    ensures Res(grid, c, l) > 2 ==> Res(grid, c, l) == grid[c][l]
  {
  }

  datatype Combo = Combo(key: nat, coeffs: seq<nat>, offsets: seq<nat>)
  datatype Level = Level(end: nat, res: seq<nat>)

  // ----- The subsets of one size -----

  /** Puts `pre` in front of every sequence of `subs`. */
  function Under(pre: seq<nat>, subs: seq<seq<nat>>): (r: seq<seq<nat>>)
    ensures |r| == |subs|
    ensures forall j :: 0 <= j < |r| ==> r[j] == pre + subs[j]
  {
    seq(|subs|, j requires 0 <= j < |subs| => pre + subs[j])
  }

  /** The strictly increasing `k`-sequences over [first, n), in lexicographic order. */
  function Subsets(first: nat, k: nat, n: nat): seq<seq<nat>>
    decreases if first <= n then n - first + 1 else 0
  {
    if k == 0 then [[]]
    else if n < first + k then []
    else Under([first], Subsets(first + 1, k - 1, n)) + Subsets(first + 1, k, n)
  }

  lemma SubsetsStep(first: nat, k: nat, n: nat)
    ensures k == 0 ==> Subsets(first, k, n) == [[]]
    ensures k > 0 && n < first + k ==> Subsets(first, k, n) == []
    ensures k > 0 && first + k <= n ==>
              Subsets(first, k, n) == Under([first], Subsets(first + 1, k - 1, n)) + Subsets(first + 1, k, n)
  {
  }

  ghost predicate Increasing(s: seq<nat>, first: nat, n: nat) {
    && (forall i :: 0 <= i < |s| ==> first <= s[i] < n)
    && (forall i, j :: 0 <= i < j < |s| ==> s[i] < s[j])
  }

  ghost predicate LexLess(a: seq<nat>, b: seq<nat>) {
    exists i :: 0 <= i < |a| && i < |b| && a[..i] == b[..i] && a[i] < b[i]
  }

  /** Nothing but the strictly increasing k-sequences is enumerated ... */
  lemma {:induction false} SubsetsSound(first: nat, k: nat, n: nat, i: nat)
    requires i < |Subsets(first, k, n)|
    ensures |Subsets(first, k, n)[i]| == k && Increasing(Subsets(first, k, n)[i], first, n)
    decreases if first <= n then n - first + 1 else 0
  {
    hide Subsets;
    SubsetsStep(first, k, n);
    if k > 0 {
      var a, b := Subsets(first + 1, k - 1, n), Subsets(first + 1, k, n);
      if i < |a| {
        SubsetsSound(first + 1, k - 1, n, i);
        assert Subsets(first, k, n)[i] == [first] + a[i];
      } else {
        SubsetsSound(first + 1, k, n, i - |a|);
      }
    }
  }

  lemma {:induction false} IncreasingRoom(s: seq<nat>, first: nat, n: nat)
    requires Increasing(s, first, n) && s != []
    ensures first + |s| <= n
    decreases |s|
  {
    if |s| > 1 {
      assert Increasing(s[1..], first + 1, n) by {
        forall i | 0 <= i < |s| - 1 ensures first + 1 <= s[1..][i] < n { assert s[0] < s[i + 1]; }
      }
      IncreasingRoom(s[1..], first + 1, n);
    }
  }

  /** ... every one of them is ... */
  lemma {:induction false} SubsetsComplete(s: seq<nat>, first: nat, n: nat) returns (i: nat)
    requires Increasing(s, first, n)
    ensures i < |Subsets(first, |s|, n)| && Subsets(first, |s|, n)[i] == s
    decreases if first <= n then n - first + 1 else 0
  {
    hide Subsets;
    SubsetsStep(first, |s|, n);
    if s == [] {
      i := 0;
    } else {
      IncreasingRoom(s, first, n);
      var a := Subsets(first + 1, |s| - 1, n);
      if s[0] == first {
        assert Increasing(s[1..], first + 1, n);
        i := SubsetsComplete(s[1..], first + 1, n);
        assert Subsets(first, |s|, n)[i] == [first] + a[i];
      } else {
        assert Increasing(s, first + 1, n);
        i := SubsetsComplete(s, first + 1, n);
        i := i + |a|;
      }
    }
  }

  /** ... in lexicographic order, so exactly once. */
  lemma {:induction false} SubsetsSorted(first: nat, k: nat, n: nat, i: nat, j: nat)
    requires i < j < |Subsets(first, k, n)|
    ensures LexLess(Subsets(first, k, n)[i], Subsets(first, k, n)[j])
    decreases if first <= n then n - first + 1 else 0
  {
    hide Subsets, LexLess;
    SubsetsStep(first, k, n);
    var a, b := Subsets(first + 1, k - 1, n), Subsets(first + 1, k, n);
    if j < |a| {
      SubsetsSorted(first + 1, k - 1, n, i, j);
      LexUnder(first, a[i], a[j]);
    } else if i < |a| {
      SubsetsSound(first + 1, k, n, j - |a|);
      LexFirst([first] + a[i], b[j - |a|]);
    } else {
      SubsetsSorted(first + 1, k, n, i - |a|, j - |a|);
    }
  }

  lemma LexUnder(first: nat, a: seq<nat>, b: seq<nat>)
    requires LexLess(a, b)
    ensures LexLess([first] + a, [first] + b)
  {
    var m :| 0 <= m < |a| && m < |b| && a[..m] == b[..m] && a[m] < b[m];
    assert ([first] + a)[..m + 1] == [first] + a[..m] && ([first] + b)[..m + 1] == [first] + b[..m];
    assert ([first] + a)[m + 1] < ([first] + b)[m + 1];
  }

  lemma LexFirst(a: seq<nat>, b: seq<nat>)
    requires a != [] && b != [] && a[0] < b[0]
    ensures LexLess(a, b)
  {
    assert a[..0] == b[..0];
  }

  // ----- Mixed-radix numbers, least significant digit first -----

  function Product(r: seq<nat>): nat {
    if r == [] then 1 else Product(r[..|r| - 1]) * r[|r| - 1]
  }

  lemma ProductPositive(r: seq<nat>)
    requires forall i :: 0 <= i < |r| ==> r[i] > 0
    ensures Product(r) > 0
  {
    if r != [] { ProductPositive(r[..|r| - 1]); }
  }

  ghost predicate DigitsOk(r: seq<nat>, d: seq<nat>) {
    |d| == |r| && forall i :: 0 <= i < |r| ==> d[i] < r[i]
  }

  /** What `demodulate` peels off from the most significant digit down. */
  function Digits(r: seq<nat>, base: nat): (d: seq<nat>)
    requires forall i :: 0 <= i < |r| ==> r[i] > 0
    ensures |d| == |r|
  {
    if r == [] then []
    else
      var front := r[..|r| - 1];
      ProductPositive(front);
      Digits(front, base % Product(front)) + [base / Product(front)]
  }

  /** The encoder: the sum of digit times offset. */
  function Number(r: seq<nat>, d: seq<nat>): nat
    requires |d| == |r|
  {
    if r == [] then 0
    else Number(r[..|r| - 1], d[..|r| - 1]) + d[|r| - 1] * Product(r[..|r| - 1])
  }

  lemma {:induction false} NumberThenDigits(r: seq<nat>, d: seq<nat>)
    requires DigitsOk(r, d)
    ensures Number(r, d) < Product(r) && Digits(r, Number(r, d)) == d
  {
    if r != [] {
      var k := |r| - 1;
      NumberThenDigits(r[..k], d[..k]);
      TopDigit(Number(r[..k], d[..k]), Product(r[..k]), d[k], r[k]);
      assert d == d[..k] + [d[k]];
    }
  }

  lemma {:induction false} DigitsThenNumber(r: seq<nat>, base: nat)
    requires forall i :: 0 <= i < |r| ==> r[i] > 0
    requires base < Product(r)
    ensures DigitsOk(r, Digits(r, base)) && Number(r, Digits(r, base)) == base
  {
    if r != [] {
      var k := |r| - 1;
      ProductPositive(r[..k]);
      SplitTop(base, Product(r[..k]), r[k]);
      DigitsThenNumber(r[..k], base % Product(r[..k]));
      assert Digits(r, base)[..k] == Digits(r[..k], base % Product(r[..k]));
    }
  }

  /** Digit strings compare from the last digit on. */
  ghost predicate DigitsBefore(a: seq<nat>, b: seq<nat>)
    requires |a| == |b|
  {
    exists i :: 0 <= i < |a| && a[i] < b[i] && a[i + 1..] == b[i + 1..]
  }

  lemma {:induction false} SomeBefore(a: seq<nat>, b: seq<nat>)
    requires |a| == |b| && a != b
    ensures DigitsBefore(a, b) || DigitsBefore(b, a)
  {
    var k := |a| - 1;
    if a[k] != b[k] {
      assert a[k + 1..] == b[k + 1..];
    } else {
      SomeBefore(a[..k], b[..k]);
      if DigitsBefore(a[..k], b[..k]) { MoreBefore(a, b); } else { MoreBefore(b, a); }
    }
  }

  lemma MoreBefore(a: seq<nat>, b: seq<nat>)
    requires |a| == |b| > 0 && a[|a| - 1] == b[|a| - 1] && DigitsBefore(a[..|a| - 1], b[..|a| - 1])
    ensures DigitsBefore(a, b)
  {
    var k := |a| - 1;
    var i :| 0 <= i < k && a[..k][i] < b[..k][i] && a[..k][i + 1..] == b[..k][i + 1..];
    assert a[i + 1..] == a[..k][i + 1..] + [a[k]] && b[i + 1..] == b[..k][i + 1..] + [b[k]];
  }

  /** The number grows with the digits, the last one first. */
  lemma {:induction false} NumberGrows(r: seq<nat>, a: seq<nat>, b: seq<nat>)
    requires DigitsOk(r, a) && DigitsOk(r, b) && DigitsBefore(a, b)
    ensures Number(r, a) < Number(r, b)
  {
    hide Product, DigitsOk, Number;
    var k := |r| - 1;
    assert |r| == |a| == |b| by { DigitsSize(r, a); DigitsSize(r, b); }
    NumberTop(r, a);
    NumberTop(r, b);
    BeforeTop(a, b);
    if a[k] < b[k] {
      MulMono(a[k] + 1, b[k], Product(r[..k]));
      MulAdd(a[k], 1, Product(r[..k]));
    } else {
      NumberGrows(r[..k], a[..k], b[..k]);
    }
  }

  lemma DigitsSize(r: seq<nat>, d: seq<nat>)
    requires DigitsOk(r, d)
    ensures |d| == |r|
  {
  }

  lemma NumberTop(r: seq<nat>, d: seq<nat>)
    requires DigitsOk(r, d) && r != []
    ensures
      var k := |r| - 1;
      && |d| == |r| && DigitsOk(r[..k], d[..k]) && Number(r[..k], d[..k]) < Product(r[..k])
      && Number(r, d) == Number(r[..k], d[..k]) + d[k] * Product(r[..k])
  {
    NumberThenDigits(r[..|r| - 1], d[..|r| - 1]);
  }

  lemma BeforeTop(a: seq<nat>, b: seq<nat>)
    requires |a| == |b| && DigitsBefore(a, b)
    ensures a != []
    ensures
      var k := |a| - 1;
      a[k] < b[k] || (a[k] == b[k] && DigitsBefore(a[..k], b[..k]))
  {
    var k := |a| - 1;
    var i :| 0 <= i < |a| && a[i] < b[i] && a[i + 1..] == b[i + 1..];
    if i < k {
      assert a[i + 1..][k - i - 1] == b[i + 1..][k - i - 1];
      assert a[..k][i + 1..] == a[i + 1..][..k - i - 1] && b[..k][i + 1..] == b[i + 1..][..k - i - 1];
    }
  }

  // ----- The table -----

  function Radices(grid: Grid, l: nat, coeffs: seq<nat>): (r: seq<nat>)
    requires SubOk(grid, l, coeffs)
    ensures |r| == |coeffs|
    ensures forall i :: 0 <= i < |r| ==> r[i] == Res(grid, coeffs[i], l) >= 2
  {
    seq(|coeffs|, i requires 0 <= i < |coeffs| => Res(grid, coeffs[i], l))
  }

  function Offsets(r: seq<nat>): seq<nat>
    requires r != []
  {
    seq(|r| - 1, j requires 0 <= j < |r| - 1 => Product(r[..j + 1]))
  }

  /** `subs` are coefficient sets that a grid with level `l` can place. */
  ghost predicate SubsOk(grid: Grid, l: nat, subs: seq<seq<nat>>) {
    forall i :: 0 <= i < |subs| ==> SubOk(grid, l, subs[i])
  }

  ghost predicate SubOk(grid: Grid, l: nat, s: seq<nat>) {
    s != [] && forall i :: 0 <= i < |s| ==> s[i] < |grid| && l < |grid[s[i]]|
  }

  /** Consecutive intervals, one per subset, starting at `key`. */
  ghost function Lay(grid: Grid, l: nat, subs: seq<seq<nat>>, key: nat): seq<Combo>
    requires SubsOk(grid, l, subs)
  {
    if subs == [] then []
    else
      assert SubOk(grid, l, subs[0]);
      var r := Radices(grid, l, subs[0]);
      [Combo(key, subs[0], Offsets(r))] + Lay(grid, l, subs[1..], key + Product(r))
  }

  ghost function LaySize(grid: Grid, l: nat, subs: seq<seq<nat>>): nat
    requires SubsOk(grid, l, subs)
  {
    if subs == [] then 0
    else
      assert SubOk(grid, l, subs[0]);
      Product(Radices(grid, l, subs[0])) + LaySize(grid, l, subs[1..])
  }

  lemma LayHead(grid: Grid, l: nat, subs: seq<seq<nat>>, key: nat)
    requires SubsOk(grid, l, subs) && subs != []
    ensures SubOk(grid, l, subs[0])
    ensures
      var r := Radices(grid, l, subs[0]);
      && LaySize(grid, l, subs) == Product(r) + LaySize(grid, l, subs[1..])
      && Lay(grid, l, subs, key) == [Combo(key, subs[0], Offsets(r))] + Lay(grid, l, subs[1..], key + Product(r))
  {
  }

  lemma SubsOkConcat(grid: Grid, l: nat, a: seq<seq<nat>>, b: seq<seq<nat>>)
    requires SubsOk(grid, l, a) && SubsOk(grid, l, b)
    ensures SubsOk(grid, l, a + b) && (a != [] ==> SubsOk(grid, l, a[1..]))
  {
  }

  lemma ConcatAssoc(a: seq<Combo>, b: seq<Combo>, c: seq<Combo>)
    ensures a + (b + c) == a + b + c
  {
  }

  lemma {:induction false} LayConcat(grid: Grid, l: nat, a: seq<seq<nat>>, b: seq<seq<nat>>, key: nat)
    requires SubsOk(grid, l, a) && SubsOk(grid, l, b)
    ensures SubsOk(grid, l, a + b) && LaySize(grid, l, a + b) == LaySize(grid, l, a) + LaySize(grid, l, b)
    ensures Lay(grid, l, a + b, key) == Lay(grid, l, a, key) + Lay(grid, l, b, key + LaySize(grid, l, a))
    decreases |a|
  {
    SubsOkConcat(grid, l, a, b);
    LayNone(grid, l, key);
    hide SubsOk, SubOk, Radices, Product, Offsets, Lay, LaySize;
    if a == [] {
      assert a + b == b;
    } else {
      assert (a + b)[1..] == a[1..] + b && (a + b)[0] == a[0];
      LayHead(grid, l, a, key);
      LayHead(grid, l, a + b, key);
      var size := Product(Radices(grid, l, a[0]));
      LayConcat(grid, l, a[1..], b, key + size);
      var rest := key + size + LaySize(grid, l, a[1..]);
      assert rest == key + LaySize(grid, l, a);
      ConcatAssoc([Combo(key, a[0], Offsets(Radices(grid, l, a[0])))], Lay(grid, l, a[1..], key + size),
                  Lay(grid, l, b, rest));
    }
  }

  lemma LayNone(grid: Grid, l: nat, key: nat)
    ensures SubsOk(grid, l, []) && Lay(grid, l, [], key) == [] && LaySize(grid, l, []) == 0
  {
  }

  lemma LevelSubsOk(grid: Grid, l: nat)
    requires GridOk(grid, l + 1)
    ensures SubsOk(grid, l, Subsets(0, l + 1, |grid|))
  {
    var subs := Subsets(0, l + 1, |grid|);
    forall i | 0 <= i < |subs| ensures SubOk(grid, l, subs[i]) {
      SubsetsSound(0, l + 1, |grid|, i);
    }
  }

  ghost function LevelSize(grid: Grid, l: nat): nat
    requires GridOk(grid, l + 1)
  {
    LevelSubsOk(grid, l);
    LaySize(grid, l, Subsets(0, l + 1, |grid|))
  }

  /** The first complexity past the first `levels` levels. */
  ghost function End(grid: Grid, levels: nat): nat
    requires GridOk(grid, levels)
  {
    if levels == 0 then 0 else End(grid, levels - 1) + LevelSize(grid, levels - 1)
  }

  ghost function Table(grid: Grid, levels: nat): seq<Combo>
    requires GridOk(grid, levels)
  {
    if levels == 0 then []
    else
      LevelSubsOk(grid, levels - 1);
      Table(grid, levels - 1) + Lay(grid, levels - 1, Subsets(0, levels, |grid|), End(grid, levels - 1))
  }

  function LevelRes(grid: Grid, l: nat): (r: seq<nat>)
    requires GridOk(grid, l + 1)
    ensures |r| == |grid|
  {
    seq(|grid|, c requires 0 <= c < |grid| => Res(grid, c, l))
  }

  ghost function Metadata(grid: Grid, levels: nat): (m: seq<Level>)
    requires GridOk(grid, levels)
    ensures |m| == levels
    ensures forall l :: 0 <= l < levels ==> m[l] == Level(End(grid, l + 1), LevelRes(grid, l))
  {
    if levels == 0 then []
    else Metadata(grid, levels - 1) + [Level(End(grid, levels), LevelRes(grid, levels - 1))]
  }

  /** How many leading levels fit under `limit`, starting from `l` levels that do. */
  ghost function Fitting(grid: Grid, limit: nat, atOnce: nat, l: nat): (r: nat)
    requires GridOk(grid, atOnce) && l <= atOnce
    ensures l <= r <= atOnce
    decreases atOnce - l
  {
    if l == atOnce || limit < End(grid, l + 1) then l else Fitting(grid, limit, atOnce, l + 1)
  }

  lemma {:induction false} FittingFits(grid: Grid, limit: nat, atOnce: nat, l: nat)
    requires GridOk(grid, atOnce) && l <= atOnce && End(grid, l) <= limit
    ensures var r := Fitting(grid, limit, atOnce, l);
            End(grid, r) <= limit && (r < atOnce ==> limit < End(grid, r + 1))
    decreases atOnce - l
  {
    hide End;
    if l != atOnce && End(grid, l + 1) <= limit {
      FittingFits(grid, limit, atOnce, l + 1);
    }
  }

  // ----- Building over lists that may be too short -----

  /** How laying subsets out ends: all are in, one does not fit, or a coefficient's list of resolutions is too short. In the
      last case the source reads past the end of the list, and nothing can be said of what it reads. */
  datatype Ending = Complete | TooBig | Past

  /** The subsets one after the other: the first that cannot be laid out decides. */
  ghost function LayEnding(grid: Grid, l: nat, subs: seq<seq<nat>>, key: nat, limit: nat): Ending {
    if subs == [] then Complete
    else if !SubOk(grid, l, subs[0]) then Past
    else
      var next := key + Product(Radices(grid, l, subs[0]));
      if limit < next then TooBig else LayEnding(grid, l, subs[1..], next, limit)
  }

  lemma {:induction false} LayComplete(grid: Grid, l: nat, subs: seq<seq<nat>>, key: nat, limit: nat)
    requires LayEnding(grid, l, subs, key, limit).Complete?
    ensures SubsOk(grid, l, subs) && (key <= limit ==> key + LaySize(grid, l, subs) <= limit)
    decreases |subs|
  {
    if subs != [] {
      var next := key + Product(Radices(grid, l, subs[0]));
      LayComplete(grid, l, subs[1..], next, limit);
      assert forall i :: 1 <= i < |subs| ==> subs[i] == subs[1..][i - 1];
      LayHead(grid, l, subs, key);
    }
  }

  /** With long enough lists it is complete exactly if it fits. */
  lemma {:induction false} LayCompleteIff(grid: Grid, l: nat, subs: seq<seq<nat>>, key: nat, limit: nat)
    requires SubsOk(grid, l, subs) && key <= limit
    ensures !LayEnding(grid, l, subs, key, limit).Past?
    ensures LayEnding(grid, l, subs, key, limit).Complete? <==> key + LaySize(grid, l, subs) <= limit
    decreases |subs|
  {
    if subs != [] {
      LayHead(grid, l, subs, key);
      var next := key + Product(Radices(grid, l, subs[0]));
      if next <= limit {
        LayCompleteIff(grid, l, subs[1..], next, limit);
      }
    }
  }

  lemma {:induction false} LayEndingConcat(grid: Grid, l: nat, a: seq<seq<nat>>, b: seq<seq<nat>>, key: nat, limit: nat)
    ensures
      var e := LayEnding(grid, l, a, key, limit);
      && (e.Complete? ==> SubsOk(grid, l, a))
      && LayEnding(grid, l, a + b, key, limit)
         == if e.Complete? then LayEnding(grid, l, b, key + LaySize(grid, l, a), limit) else e
    decreases |a|
  {
    hide Product, Radices, SubOk, LaySize;
    if a == [] {
      assert a + b == b;
      LayNone(grid, l, key);
    } else {
      assert (a + b)[0] == a[0] && (a + b)[1..] == a[1..] + b;
      if SubOk(grid, l, a[0]) {
        var next := key + Product(Radices(grid, l, a[0]));
        LayEndingConcat(grid, l, a[1..], b, next, limit);
        if LayEnding(grid, l, a, key, limit).Complete? {
          LayComplete(grid, l, a, key, limit);
          LayHead(grid, l, a, key);
        }
      }
    }
  }

  ghost function LevelEnding(grid: Grid, l: nat, limit: nat): Ending
    requires GridOk(grid, l)
  {
    LayEnding(grid, l, Subsets(0, l + 1, |grid|), End(grid, l), limit)
  }

  /** What a build comes to from level `l` on: how many levels it completes, and whether it then reads past a list. */
  ghost function Built(grid: Grid, limit: nat, atOnce: nat, l: nat): (r: (nat, bool))
    requires l <= atOnce <= |grid| && GridOk(grid, l)
    ensures l <= r.0 <= atOnce && GridOk(grid, r.0) && (r.1 ==> r.0 < atOnce)
    decreases atOnce - l
  {
    if l == atOnce then (l, false)
    else
      match LevelEnding(grid, l, limit)
      case TooBig => (l, false)
      case Past => (l, true)
      case Complete =>
        LevelReached(grid, l, limit);
        Built(grid, limit, atOnce, l + 1)
  }

  function Window(start: nat, n: nat): (r: seq<nat>)
    ensures |r| == n && forall i :: 0 <= i < n ==> r[i] == start + i
  {
    seq(n, i => start + i)
  }

  lemma WindowIncreasing(start: nat, m: nat, n: nat)
    requires start + m <= n
    ensures Increasing(Window(start, m), 0, n)
  {
  }

  /** Every coefficient is in some subset, so a completed level has read every list. */
  lemma LevelReached(grid: Grid, l: nat, limit: nat)
    requires GridOk(grid, l) && l < |grid| && LevelEnding(grid, l, limit).Complete?
    ensures GridOk(grid, l + 1)
  {
    var subs := Subsets(0, l + 1, |grid|);
    LayComplete(grid, l, subs, End(grid, l), limit);
    forall c | 0 <= c < |grid| ensures l + 1 <= |grid[c]| {
      CoefficientSeen(grid, l, c);
    }
  }

  lemma CoefficientSeen(grid: Grid, l: nat, c: nat)
    requires l < |grid| && c < |grid| && SubsOk(grid, l, Subsets(0, l + 1, |grid|))
    ensures l < |grid[c]|
  {
    var start := if c + l + 1 <= |grid| then c else |grid| - (l + 1);
    var s := Window(start, l + 1);
    WindowIncreasing(start, l + 1, |grid|);
    var i := SubsetsComplete(s, 0, |grid|);
    assert s[c - start] == c;
    assert SubOk(grid, l, Subsets(0, l + 1, |grid|)[i]);
  }

  lemma LevelCompleteIff(grid: Grid, l: nat, limit: nat)
    requires GridOk(grid, l + 1) && End(grid, l) <= limit
    ensures GridOk(grid, l) && !LevelEnding(grid, l, limit).Past?
    ensures LevelEnding(grid, l, limit).Complete? <==> End(grid, l + 1) <= limit
  {
    LevelSubsOk(grid, l);
    LayCompleteIff(grid, l, Subsets(0, l + 1, |grid|), End(grid, l), limit);
  }

  /** Where every list is long enough, a build is the levels that fit. */
  lemma {:induction false} BuiltIsFitting(grid: Grid, limit: nat, atOnce: nat, l: nat)
    requires l <= atOnce <= |grid| && GridOk(grid, atOnce) && End(grid, l) <= limit
    ensures GridOk(grid, l) && Built(grid, limit, atOnce, l) == (Fitting(grid, limit, atOnce, l), false)
    decreases atOnce - l
  {
    hide End, LevelEnding;
    if l < atOnce {
      assert GridOk(grid, l + 1);
      LevelCompleteIff(grid, l, limit);
      if End(grid, l + 1) <= limit {
        BuiltIsFitting(grid, limit, atOnce, l + 1);
      }
    }
  }
}
