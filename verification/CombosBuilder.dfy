/** `combos_builder`: the recursion that fills the table through one shared vector, and the decoder. */
module CombosBuilder {
  import opened Combos
  import opened Coefficients
  import opened Positions
  import opened Demodulation

  // ----- What is left of one level -----

  /** The subsets the recursion still has to lay out below the prefix `pre`, from `first` on. */
  ghost function Left(pre: seq<nat>, first: nat, k: nat, n: nat): seq<seq<nat>>
    requires |pre| <= k
  {
    Under(pre, Subsets(first, k - |pre|, n))
  }

  /** Choosing `first` next, or not: the loop's step. */
  lemma LeftStep(pre: seq<nat>, first: nat, k: nat, n: nat)
    requires |pre| < k && first + (k - |pre|) <= n
    ensures Left(pre, first, k, n) == Left(pre + [first], first + 1, k, n) + Left(pre, first + 1, k, n)
  {
    var m := k - |pre|;
    var a, b := Subsets(first + 1, m - 1, n), Subsets(first + 1, m, n);
    assert Subsets(first, m, n) == Under([first], a) + b;
    forall i | 0 <= i < |a| ensures Under(pre, Under([first], a) + b)[i] == Under(pre + [first], a)[i] {
      assert pre + ([first] + a[i]) == pre + [first] + a[i];
    }
  }

  lemma LeftNone(pre: seq<nat>, first: nat, k: nat, n: nat)
    requires |pre| < k && n < first + (k - |pre|)
    ensures Left(pre, first, k, n) == []
  {
  }

  lemma LeftOne(pre: seq<nat>, first: nat, n: nat)
    ensures Left(pre, first, |pre|, n) == [pre]
  {
    assert pre + [] == pre;
  }

  /** `now` is `was` with entries added that all have keys from `from` on. */
  ghost predicate Grown(was: seq<Combo>, from: nat, now: seq<Combo>) {
    was <= now && forall i :: |was| <= i < |now| ==> from <= now[i].key
  }

  lemma GrownTrans(was: seq<Combo>, from: nat, now: seq<Combo>, index: nat, next: seq<Combo>)
    requires Grown(was, from, now) && Grown(now, index, next) && from <= index
    ensures Grown(was, from, next)
  {
  }

  lemma LayOne(grid: Grid, l: nat, s: seq<nat>, key: nat)
    requires SubOk(grid, l, s)
    ensures SubsOk(grid, l, [s])
    ensures Lay(grid, l, [s], key) == [Combo(key, s, Offsets(Radices(grid, l, s)))]
    ensures LaySize(grid, l, [s]) == Product(Radices(grid, l, s))
  {
    assert [s][1..] == [];
  }

  /** The outcome of laying out `todo` behind `was`. Nothing that was there before is touched. */
  ghost predicate Laid(grid: Grid, l: nat, was: seq<Combo>, from: nat, todo: seq<seq<nat>>, limit: nat,
                       ending: Ending, now: seq<Combo>, next: nat)
  {
    && ending == LayEnding(grid, l, todo, from, limit) && Grown(was, from, now)
    && (ending.Complete? ==>
          && SubsOk(grid, l, todo) && next == from + LaySize(grid, l, todo) && now == was + Lay(grid, l, todo, from))
  }

  lemma LaidStart(grid: Grid, l: nat, was: seq<Combo>, from: nat, limit: nat)
    ensures Laid(grid, l, was, from, [], limit, Complete, was, from)
  {
    LayNone(grid, l, from);
  }

  /** `head` behind `done`, which was complete: together, and if it stopped there, whatever would have followed. */
  lemma LaidThen(grid: Grid, l: nat, was: seq<Combo>, from: nat, done: seq<seq<nat>>, limit: nat,
                 now: seq<Combo>, index: nat, head: seq<seq<nat>>, ending: Ending, next: seq<Combo>, next': nat,
                 tail: seq<seq<nat>>)
    requires Laid(grid, l, was, from, done, limit, Complete, now, index)
    requires Laid(grid, l, now, index, head, limit, ending, next, next')
    ensures Laid(grid, l, was, from, done + head, limit, ending, next, next')
    ensures !ending.Complete? ==> Laid(grid, l, was, from, done + head + tail, limit, ending, next, next')
  {
    LayEndingConcat(grid, l, done, head, from, limit);
    LayEndingConcat(grid, l, done + head, tail, from, limit);
    hide LayEnding, SubsOk, Lay, LaySize;
    GrownTrans(was, from, now, index, next);
    if ending.Complete? {
      LayConcat(grid, l, done, head, from);
      ConcatAssoc(was, Lay(grid, l, done, from), Lay(grid, l, head, index));
    }
  }

  /** One subset. */
  lemma LaidOne(grid: Grid, l: nat, was: seq<Combo>, from: nat, s: seq<nat>, limit: nat, fits: bool)
    requires SubOk(grid, l, s) && (fits <==> from + Product(Radices(grid, l, s)) <= limit)
    ensures
      var r := Radices(grid, l, s);
      Laid(grid, l, was, from, [s], limit, if fits then Complete else TooBig, was + [Combo(from, s, Offsets(r))],
           from + if fits then Product(r) else 0)
  {
    LayOne(grid, l, s, from);
    LaidStart(grid, l, was, from + Product(Radices(grid, l, s)), limit);
  }

  lemma LaidNone(grid: Grid, l: nat, was: seq<Combo>, from: nat, s: seq<nat>, limit: nat, now: seq<Combo>)
    requires !SubOk(grid, l, s) && Grown(was, from, now)
    ensures Laid(grid, l, was, from, [s], limit, Past, now, from)
  {
  }

  class Builder {
    var combos: seq<Combo>
    var metadata: seq<Level>

    constructor ()
      ensures combos == [] && metadata == []
    {
      combos, metadata := [], [];
    }

    /** `build_combo_instance`: lays out every subset that starts with `transient[..at]`. On the way back it leaves the
        rest of the shared vector one further on, which is where the caller's next round must find it. */
    method BuildComboInstance(k: nat, at: nat, grid: Grid, transient: array<nat>, index: nat, limit: nat)
      returns (ending: Ending, next: nat)
      requires at < k == transient.Length
      requires Increasing(transient[..at], 0, transient[at])
      requires forall j :: at <= j < k ==> transient[j] == transient[at] + (j - at)
      requires transient[at] + (k - at) <= |grid|
      modifies this`combos, transient
      ensures transient[..at] == old(transient[..at])
      ensures ending.Complete? ==> forall j :: at <= j < k ==> transient[j] == old(transient[at]) + 1 + (j - at)
      ensures Laid(grid, k - 1, old(combos), index, Left(old(transient[..at]), old(transient[at]), k, |grid|), limit,
                   ending, combos, next)
      decreases k - at
    {
      hide Subsets, Left, Laid, SubsOk;
      var start, end := transient[at], |grid| - (k - 1 - at);
      ghost var pre, was := transient[..at], combos;
      ghost var todo, done := Left(pre, start, k, |grid|), [];
      LaidStart(grid, k - 1, was, index, limit);
      next := index;
      var i := start;
      assert done + todo == todo;
      while i != end
        invariant start <= i <= end
        invariant transient[..at] == pre && transient[at] == i
        invariant forall j :: at <= j < k ==> transient[j] == i + (j - at)
        invariant done + Left(pre, i, k, |grid|) == todo
        invariant Laid(grid, k - 1, was, index, done, limit, Complete, combos, next)
        decreases end - i
      {
        ghost var now, from := combos, next;
        ghost var head, tail := Left(pre + [i], i + 1, k, |grid|), Left(pre, i + 1, k, |grid|);
        LeftStep(pre, i, k, |grid|);
        assert transient[..at + 1] == pre + [i];
        if at + 1 != k {
          ending, next := BuildComboInstance(k, at + 1, grid, transient, next, limit);
        } else {
          LeftOne(pre + [i], i + 1, |grid|);
          assert transient[..] == pre + [i];
          ending, next := AddCombo(k, grid, transient, next, limit);
        }
        assert done + (head + tail) == done + head + tail;
        LaidThen(grid, k - 1, was, index, done, limit, now, from, head, ending, combos, next, tail);
        if !ending.Complete? {
          return;
        }
        done := done + head;
        i := i + 1;
        transient[at] := i;
      }
      LeftNone(pre, i, k, |grid|);
      assert done + [] == done;
      ResetTail(transient, at, start);
      ending := Complete;
    }

    /** What the loop does to the shared vector once it is through. */
    static method ResetTail(transient: array<nat>, at: nat, start: nat)
      requires at < transient.Length
      modifies transient
      ensures transient[..at] == old(transient[..at])
      ensures forall j :: at <= j < transient.Length ==> transient[j] == start + 1 + (j - at)
    {
      var next := start;
      for j := at to transient.Length
        invariant transient[..at] == old(transient[..at]) && next == start + (j - at)
        invariant forall m :: at <= m < j ==> transient[m] == start + 1 + (m - at)
      {
        next := next + 1;
        transient[j] := next;
      }
    }

    /** Whether the list of some coefficient of the subset ends before level `k`. The source does not look: it reads. */
    static method ReadsPast(k: nat, grid: Grid, transient: array<nat>) returns (past: bool)
      requires 1 <= k == transient.Length && forall j :: 0 <= j < k ==> transient[j] < |grid|
      ensures past <==> !SubOk(grid, k - 1, transient[..])
    {
      past := false;
      for j := 0 to k
        invariant past <==> exists m :: 0 <= m < j && |grid[transient[m]]| < k
      {
        past := past || |grid[transient[j]]| < k;
      }
    }

    /** The innermost body: one combo with its offsets, entered before it is known to fit. */
    method AddCombo(k: nat, grid: Grid, transient: array<nat>, index: nat, limit: nat) returns (ending: Ending, next: nat)
      requires 1 <= k == transient.Length && forall j :: 0 <= j < k ==> transient[j] < |grid|
      modifies this`combos
      ensures Laid(grid, k - 1, old(combos), index, [transient[..]], limit, ending, combos, next)
    {
      hide Product, Res, Laid;
      ghost var s := transient[..];
      var past := ReadsPast(k, grid, transient);
      if past {
        combos := combos + [Combo(index, transient[..], [])];
        LaidNone(grid, k - 1, old(combos), index, s, limit, combos);
        return Past, index;
      }
      ghost var r := Radices(grid, k - 1, s);
      var offsets := [];
      var accumulator: nat := Res(grid, transient[0], k - 1);
      ProductOne(r);
      for j := 1 to k
        invariant combos == old(combos) && accumulator == Product(r[..j])
        invariant offsets == seq(j - 1, m requires 0 <= m < j - 1 => Product(r[..m + 1]))
      {
        ProductTake(r, j);
        offsets := offsets + [accumulator];
        accumulator := Res(grid, transient[j], k - 1) * accumulator;
      }
      assert r[..k] == r && offsets == Offsets(r);
      combos := combos + [Combo(index, transient[..], offsets)];
      var fits := index + accumulator <= limit;
      ending := if fits then Complete else TooBig;
      next := if fits then index + accumulator else index;
      LaidOne(grid, k - 1, old(combos), index, s, limit, fits);
    }

    /** `build_combo`: one level, over a fresh vector 0, 1, ..., k - 1. */
    method BuildCombo(k: nat, grid: Grid, index: nat, limit: nat) returns (ending: Ending, next: nat)
      requires 1 <= k <= |grid|
      modifies this`combos
      ensures Laid(grid, k - 1, old(combos), index, Subsets(0, k, |grid|), limit, ending, combos, next)
    {
      hide Subsets, Laid;
      var transient := new nat[k];
      for i := 0 to k
        invariant combos == old(combos)
        invariant forall j :: 0 <= j < i ==> transient[j] == j
      {
        transient[i] := i;
      }
      assert Left([], 0, k, |grid|) == Subsets(0, k, |grid|) by { UnderNothing(Subsets(0, k, |grid|)); }
      ending, next := BuildComboInstance(k, 0, grid, transient, index, limit);
    }

    /** `build`. If it comes to read past the end of a list of resolutions nothing is promised of the table. */
    method Build(grid: Grid, limit: nat, atOnce: nat) returns (size: nat, levels: nat, past: bool)
      requires limit > 0 && 1 <= atOnce <= |grid|
      modifies this
      ensures (levels, past) == Built(grid, limit, atOnce, 0)
      ensures !past ==> size == End(grid, levels) && combos == Table(grid, levels) && metadata == Metadata(grid, levels)
    {
      hide Table, End, Metadata, Subsets, Laid, LevelEnding;
      combos, metadata := [], [];
      TableNone(grid);
      var index, i: nat := 0, 0;
      while i != atOnce
        invariant i <= atOnce && GridOk(grid, i) && index == End(grid, i)
        invariant combos == Table(grid, i) && metadata == Metadata(grid, i)
        invariant Built(grid, limit, atOnce, 0) == Built(grid, limit, atOnce, i)
      {
        var ending, next := BuildCombo(i + 1, grid, index, limit);
        LevelLaid(grid, i, limit, ending, combos, next);
        if ending.Past? {
          return 0, i, true;
        }
        if ending.TooBig? {
          if i == 0 {
            combos := [];
            return 0, 0, false;
          }
          MetadataLast(grid, i);
          CutBack(grid, i, combos);
          combos := combos[..LowerKey(combos, metadata[|metadata| - 1].end)];
          break;
        }
        index := next;
        metadata := metadata + [Level(index, LevelRes(grid, i))];
        MetadataStep(grid, i);
        i := i + 1;
      }
      MetadataLast(grid, i);
      size, levels, past := metadata[|metadata| - 1].end, |metadata|, false;
    }

    /** The inner loops of `demodulate`: coefficients above `stop` stay at the centre. */
    static method ResetDownTo(coefficients: CoefficientArray, from: nat, stop: nat, top: nat, ghost grid: Grid, ghost m: Move,
                              ghost was: seq<Coefficient>, ghost start: nat, ghost calls: seq<nat>)
      requires stop <= from < |coefficients.all|
      requires forall j :: stop < j <= from ==> j !in m.coeffs
      requires Moved(grid, m, was, start, calls, coefficients.all, coefficients.offset, coefficients.calls, from + 1)
      modifies coefficients
      ensures Moved(grid, m, was, start, calls, coefficients.all, coefficients.offset, coefficients.calls, stop + 1)
      ensures |coefficients.all| == |old(coefficients.all)|
    {
      hide Moved;
      var u := from;
      while stop != u
        invariant stop <= u <= from && |coefficients.all| == |old(coefficients.all)|
        invariant Moved(grid, m, was, start, calls, coefficients.all, coefficients.offset, coefficients.calls, u + 1)
      {
        MovedReset(grid, m, was, start, calls, coefficients.all, coefficients.offset, coefficients.calls, u);
        coefficients.ValueReset(u);
        u := Down(u, top);
      }
    }

    /** One round of the descent: down to the `i`-th moved coefficient, which then goes along its grid. */
    static method SetNext(coefficients: CoefficientArray, from: nat, i: nat, toChange: nat, g: nat, res: nat, top: nat,
                          ghost levels: nat, ghost grid: Grid, ghost m: Move,
                          ghost was: seq<Coefficient>, ghost start: nat, ghost calls: seq<nat>)
      requires GridOk(grid, levels) && Headed(grid, was) && MoveOk(grid, levels, m) && EndedAtRest(was)
      requires i < |m.coeffs| && toChange == m.coeffs[i] <= from < |coefficients.all| == |was|
      requires |m.digits| == |m.coeffs| && g == m.digits[i]
      requires GridOk(grid, m.level + 1) && res == LevelRes(grid, m.level)[toChange]
      requires forall j :: toChange < j <= from ==> j !in m.coeffs
      requires Moved(grid, m, was, start, calls, coefficients.all, coefficients.offset, coefficients.calls, from + 1)
      modifies coefficients
      ensures Moved(grid, m, was, start, calls, coefficients.all, coefficients.offset, coefficients.calls, toChange)
      ensures |coefficients.all| == |was|
    {
      hide Moved, MoveOk, LevelRes, EndedAtRest, GridOk;
      ResetDownTo(coefficients, from, toChange, top, grid, m, was, start, calls);
      MovedGrid(grid, levels, m, was, start, calls,
                coefficients.all, coefficients.offset, coefficients.calls, i);
      coefficients.ValueFromGrid(toChange, g, res);
    }

    /** The last loop of `demodulate`: the index wraps past zero to `top`, which is not below the size. */
    static method ResetRest(coefficients: CoefficientArray, first: nat, top: nat, ghost grid: Grid, ghost m: Move,
                            ghost was: seq<Coefficient>, ghost start: nat, ghost calls: seq<nat>)
      requires first < |coefficients.all| == |was| < top
      requires forall j :: 0 <= j < first ==> j !in m.coeffs
      requires Moved(grid, m, was, start, calls, coefficients.all, coefficients.offset, coefficients.calls, first)
      modifies coefficients
      ensures Moved(grid, m, was, start, calls, coefficients.all, coefficients.offset, coefficients.calls, 0)
    {
      hide Moved;
      var u := Down(first, top);
      ghost var left: nat := first;
      while u < |coefficients.all|
        invariant u == (if left == 0 then top else left - 1) && left <= first && |coefficients.all| == |was|
        invariant Moved(grid, m, was, start, calls, coefficients.all, coefficients.offset, coefficients.calls, left)
        decreases left
      {
        MovedReset(grid, m, was, start, calls, coefficients.all, coefficients.offset, coefficients.calls, u);
        coefficients.ValueReset(u);
        left := u;
        u := Down(u, top);
      }
    }

    /** The end of the descent: the lowest moved coefficient, and those below it. */
    static method SetLast(coefficients: CoefficientArray, from: nat, toChange: nat, g: nat, res: nat, top: nat,
                          ghost levels: nat, ghost grid: Grid, ghost m: Move,
                          ghost was: seq<Coefficient>, ghost start: nat, ghost calls: seq<nat>)
      requires GridOk(grid, levels) && Headed(grid, was) && MoveOk(grid, levels, m) && EndedAtRest(was)
      requires m.coeffs != [] && Increasing(m.coeffs, 0, |grid|) && toChange == m.coeffs[0] <= from
      requires from < |coefficients.all| == |was| < top && forall k :: 0 < k < |m.coeffs| ==> from < m.coeffs[k]
      requires |m.digits| == |m.coeffs| && g == m.digits[0]
      requires GridOk(grid, m.level + 1) && toChange < |grid| && res == LevelRes(grid, m.level)[toChange]
      requires Moved(grid, m, was, start, calls, coefficients.all, coefficients.offset, coefficients.calls, from + 1)
      modifies coefficients
      ensures Moved(grid, m, was, start, calls, coefficients.all, coefficients.offset, coefficients.calls, 0)
    {
      hide Moved, MoveOk, LevelRes, EndedAtRest, GridOk, Headed;
      BetweenCoeffs(m.coeffs, 0, from);
      SetNext(coefficients, from, 0, toChange, g, res, top, levels, grid, m, was, start, calls);
      ResetRest(coefficients, toChange, top, grid, m, was, start, calls);
    }

    /** The two lookups `demodulate` begins with: the subset and its offsets, what is left for the digits, and the
        resolutions of the level. */
    method LookUp(c: nat, ghost grid: Grid, ghost levels: nat)
      returns (coeffs: seq<nat>, offsets: seq<nat>, base: nat, gridRes: seq<nat>)
      requires GridOk(grid, levels) && c < End(grid, levels)
      requires combos == Table(grid, levels) && metadata == Metadata(grid, levels)
      ensures
        var m := Decode(grid, levels, c);
        && MoveOk(grid, levels, m) && SubOk(grid, m.level, m.coeffs) && GridOk(grid, m.level + 1)
        && |m.digits| == |m.coeffs| == m.level + 1 && Increasing(m.coeffs, 0, |grid|) && 1 <= |grid|
        && coeffs == m.coeffs && offsets == Offsets(Radices(grid, m.level, m.coeffs)) && gridRes == LevelRes(grid, m.level)
        && DigitsLeft(Radices(grid, m.level, m.coeffs), m.digits, m.level, base)
    {
      hide Table, End, Metadata, Decode, MoveOk, Digits, Product, Offsets, Radices, Subsets, FindCombo, UpperLevel, LevelRes;
      ghost var m := Decode(grid, levels, c);
      MoveFacts(grid, levels, m);
      FindsEntry(grid, levels, c);
      var ci := combos[FindCombo(combos, c)];
      coeffs, offsets, base := ci.coeffs, ci.offsets, c - ci.key;
      FindsLevel(grid, levels, c);
      gridRes := metadata[UpperLevel(metadata, c)].res;
      DigitsStart(Radices(grid, m.level, m.coeffs), m.digits, base);
    }

    /** One digit off what is left. */
    static method Peel(base: nat, i: nat, offsets: seq<nat>, ghost r: seq<nat>, ghost digits: seq<nat>)
      returns (g: nat, rest: nat)
      requires 0 < i < |r| && offsets == Offsets(r) && DigitsLeft(r, digits, i, base)
      ensures i < |digits| && g == digits[i] && DigitsLeft(r, digits, i - 1, rest)
    {
      hide DigitsLeft, Product, Digits;
      OffsetAt(r, i);
      PeelDigit(r, digits, i, base);
      g := base / offsets[i - 1];
      rest := base - g * offsets[i - 1];
    }

    /** `demodulate`: sets every coefficient to its place for complexity `c`, from the last to the first, and collects
        the position code on the way. The table is over `grid`, whose lists may go on further than those of the coefficients.
        `top` is the largest value of the index type. */
    method Demodulate(c: nat, coefficients: CoefficientArray, top: nat, ghost grid: Grid, ghost levels: nat)
      requires GridOk(grid, levels) && c < End(grid, levels) && Headed(grid, coefficients.all)
      requires combos == Table(grid, levels) && metadata == Metadata(grid, levels)
      requires EndedAtRest(coefficients.all) && |coefficients.all| < top
      modifies coefficients
      ensures
        Moved(grid, Decode(grid, levels, c), old(coefficients.all), old(coefficients.offset), old(coefficients.calls),
              coefficients.all, coefficients.offset, coefficients.calls, 0)
    {
      hide Table, End, Metadata, Decode, Headed, Moved, MoveOk, Digits, Product, Offsets, Radices, Subsets, LevelRes,
           EndedAtRest, GridOk, DigitsLeft;
      ghost var was, calls, start := coefficients.all, coefficients.calls, coefficients.offset;
      ghost var m := Decode(grid, levels, c);
      HeadedSize(grid, was);
      var coeffs, offsets, base, gridRes := LookUp(c, grid, levels);
      ghost var r := Radices(grid, m.level, m.coeffs);
      MovedStart(grid, m, was, start, calls);
      var u: nat := |coefficients.all| - 1;
      var i: nat := |coeffs| - 1;
      while i != 0
        invariant i < |m.coeffs| && m.coeffs[i] <= u < |coefficients.all| == |was|
        invariant forall k :: i < k < |m.coeffs| ==> u < m.coeffs[k]
        invariant Moved(grid, m, was, start, calls, coefficients.all, coefficients.offset, coefficients.calls, u + 1)
        invariant DigitsLeft(r, m.digits, i, base)
      {
        BetweenCoeffs(m.coeffs, i, u);
        var toChange := coeffs[i];
        var g, rest := Peel(base, i, offsets, r, m.digits);
        SetNext(coefficients, u, i, toChange, g, gridRes[toChange], top, levels, grid, m, was, start, calls);
        u := Down(toChange, top);
        base := rest;
        i := i - 1;
      }
      LastDigit(r, m.digits, base);
      SetLast(coefficients, u, coeffs[0], base, gridRes[coeffs[0]], top, levels, grid, m, was, start, calls);
    }
  }

  lemma UnderNothing(subs: seq<seq<nat>>)
    ensures Under([], subs) == subs
  {
    assert forall j :: 0 <= j < |subs| ==> [] + subs[j] == subs[j];
  }

  lemma TableNone(grid: Grid)
    ensures Table(grid, 0) == [] && Metadata(grid, 0) == [] && End(grid, 0) == 0
  {
  }

  lemma MetadataStep(grid: Grid, l: nat)
    requires GridOk(grid, l + 1)
    ensures Metadata(grid, l + 1) == Metadata(grid, l) + [Level(End(grid, l + 1), LevelRes(grid, l))]
  {
  }

  lemma MetadataLast(grid: Grid, l: nat)
    requires GridOk(grid, l) && l > 0
    ensures |Metadata(grid, l)| == l && Metadata(grid, l)[l - 1].end == End(grid, l)
  {
  }

  lemma LevelLaid(grid: Grid, l: nat, limit: nat, ending: Ending, now: seq<Combo>, next: nat)
    requires l < |grid| && GridOk(grid, l)
    requires Laid(grid, l, Table(grid, l), End(grid, l), Subsets(0, l + 1, |grid|), limit, ending, now, next)
    ensures ending == LevelEnding(grid, l, limit) && Grown(Table(grid, l), End(grid, l), now)
    ensures ending.Complete? ==> GridOk(grid, l + 1) && now == Table(grid, l + 1) && next == End(grid, l + 1)
  {
    if ending.Complete? {
      LevelReached(grid, l, limit);
    }
  }

  /** Everything of a level that did not fit starts at or after the end of the level before. */
  lemma CutBack(grid: Grid, l: nat, now: seq<Combo>)
    requires GridOk(grid, l) && Grown(Table(grid, l), End(grid, l), now)
    ensures now[..LowerKey(now, End(grid, l))] == Table(grid, l)
  {
    TableSorted(grid, l);
    hide Table, End;
    var t, k := Table(grid, l), LowerKey(now, End(grid, l));
    assert forall i :: 0 <= i < |t| ==> now[i] == t[i];
    assert |t| < |now| ==> End(grid, l) <= now[|t|].key;
  }

  lemma ProductOne(r: seq<nat>)
    requires r != []
    ensures Product(r[..1]) == r[0]
  {
    assert r[..1][..0] == [];
  }

  lemma ProductTake(r: seq<nat>, j: nat)
    requires j < |r|
    ensures Product(r[..j + 1]) == Product(r[..j]) * r[j] == r[j] * Product(r[..j])
  {
    assert r[..j + 1][..j] == r[..j];
  }
}
