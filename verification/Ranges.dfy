/** The interval-map library: a set of naturals kept as an ordered map from range start to range size.
    An `::std::map` iterated in key order is the sequence `ranges`; an iterator into it is an index. */
module Ranges {

  datatype Range = Range(start: nat, size: nat) {
    function End(): nat { start + size }
  }

  ghost predicate Within(x: nat, r: Range) { r.start <= x < r.End() }

  ghost function Points(r: Range): (p: set<nat>)
    ensures forall x :: x in p <==> Within(x, r)
  {
    set x: nat | x < r.End() && Within(x, r)
  }

  /** The set of naturals a sequence of ranges stands for. */
  ghost function Union(s: seq<Range>): set<nat> {
    if s == [] then {} else Points(s[0]) + Union(s[1..])
  }

  /** What `test_container` sweeps for: nonempty ranges, in order, with a gap between neighbours. */
  ghost predicate Canonical(s: seq<Range>) {
    && (forall i :: 0 <= i < |s| ==> s[i].size > 0)
    && (forall i, j :: 0 <= i < j < |s| ==> s[i].End() < s[j].start)
  }

  lemma UnionConcat(a: seq<Range>, b: seq<Range>)
    ensures Union(a + b) == Union(a) + Union(b)
  {
    if a == [] {
      assert a + b == b;
    } else {
      assert (a + b)[1..] == a[1..] + b;
      UnionConcat(a[1..], b);
    }
  }

  lemma UnionSplit(s: seq<Range>, j: nat)
    requires j <= |s|
    ensures Union(s) == Union(s[..j]) + Union(s[j..])
  {
    assert s == s[..j] + s[j..];
    UnionConcat(s[..j], s[j..]);
  }

  lemma UnionBelow(s: seq<Range>, hi: nat)
    requires forall k :: 0 <= k < |s| ==> s[k].End() <= hi
    ensures forall x :: x in Union(s) ==> x < hi
  {
    if s != [] { UnionBelow(s[1..], hi); }
  }

  lemma UnionAbove(s: seq<Range>, lo: nat)
    requires forall k :: 0 <= k < |s| ==> lo <= s[k].start
    ensures forall x :: x in Union(s) ==> lo <= x
  {
    if s != [] { UnionAbove(s[1..], lo); }
  }

  /** Ranges before `j` end by `lo`, ranges from `j` on start at or after `hi`: nothing in between. */
  lemma Separated(s: seq<Range>, j: nat, lo: nat, hi: nat)
    requires j <= |s|
    requires forall k :: 0 <= k < j ==> s[k].End() <= lo
    requires forall k :: j <= k < |s| ==> hi <= s[k].start
    ensures forall x :: x in Union(s) ==> x < lo || hi <= x
  {
    UnionSplit(s, j);
    UnionBelow(s[..j], lo);
    UnionAbove(s[j..], hi);
  }

  /** The map after entry `j` is replaced by `mid`. */
  function Splice(s: seq<Range>, j: nat, mid: seq<Range>): seq<Range>
    requires j < |s|
  {
    s[..j] + mid + s[j + 1..]
  }

  lemma UnionSplice(s: seq<Range>, j: nat, mid: seq<Range>)
    requires j < |s|
    ensures Union(s) == Union(s[..j]) + Points(s[j]) + Union(s[j + 1..])
    ensures Union(Splice(s, j, mid)) == Union(s[..j]) + Union(mid) + Union(s[j + 1..])
  {
    assert s == s[..j] + [s[j]] + s[j + 1..];
    UnionConcat(s[..j] + [s[j]], s[j + 1..]);
    UnionConcat(s[..j], [s[j]]);
    UnionConcat(s[..j] + mid, s[j + 1..]);
    UnionConcat(s[..j], mid);
  }

  lemma CanonicalSplice(s: seq<Range>, j: nat, mid: seq<Range>)
    requires Canonical(s) && j < |s| && Canonical(mid)
    requires forall k :: 0 <= k < |mid| ==> s[j].start <= mid[k].start && mid[k].End() <= s[j].End()
    ensures Canonical(Splice(s, j, mid))
  {
    var t := Splice(s, j, mid);
    forall i, k | 0 <= i < k < |t| ensures t[i].size > 0 && t[k].size > 0 && t[i].End() < t[k].start {
      assert t[i] == if i < j then s[i] else if i < j + |mid| then mid[i - j] else s[i - |mid| + 1];
      assert t[k] == if k < j then s[k] else if k < j + |mid| then mid[k - j] else s[k - |mid| + 1];
    }
  }

  lemma UnionOne(r: Range)
    ensures Union([r]) == Points(r)
    ensures r.size > 0 ==> Canonical([r])
  {
    assert [r][1..] == [];
  }

  lemma UnionTwo(r: Range, q: Range)
    ensures Union([r, q]) == Points(r) + Points(q)
  {
    assert [r, q] == [r] + [q];
    UnionConcat([r], [q]);
    UnionOne(r);
    UnionOne(q);
  }

  lemma UnionThree(a: seq<Range>, r: Range, b: seq<Range>)
    ensures Union(a + [r] + b) == Union(a) + Points(r) + Union(b)
  {
    UnionConcat(a + [r], b);
    UnionConcat(a, [r]);
    UnionOne(r);
  }

  lemma CanonicalThree(a: seq<Range>, r: Range, b: seq<Range>)
    requires Canonical(a) && Canonical(b) && r.size > 0
    requires a != [] ==> a[|a| - 1].End() < r.start
    requires b != [] ==> r.End() < b[0].start
    ensures Canonical(a + [r] + b)
  {
  }

  lemma CanonicalSlices(s: seq<Range>, j: nat, k: nat)
    requires Canonical(s) && j < |s| && k <= |s|
    ensures Canonical(s[..j]) && Canonical(s[k..]) && s[j].size > 0
    ensures j > 0 ==> s[j - 1].End() < s[j].start
    ensures j + 1 < |s| ==> s[j].End() < s[j + 1].start
  {
  }

  lemma UnionTake(b: seq<Range>, i: nat)
    requires i < |b|
    ensures Union(b[..i + 1]) == Union(b[..i]) + Points(b[i])
  {
    assert b[..i + 1] == b[..i] + [b[i]];
    UnionConcat(b[..i], [b[i]]);
    UnionOne(b[i]);
  }

  lemma EmptyUnion(s: seq<Range>)
    requires Canonical(s)
    ensures s == [] <==> Union(s) == {}
  {
    if s != [] { assert Within(s[0].start, s[0]); }
  }

  /** What the first range of a canonical form is to its set. */
  lemma HeadOf(s: seq<Range>)
    requires Canonical(s) && s != []
    ensures Canonical(s[1..]) && Union(s[1..]) == Union(s) - Points(s[0])
    ensures s[0].start in Union(s) && s[0].End() !in Union(s) && Points(s[0]) <= Union(s)
    ensures forall x :: x in Union(s) ==> s[0].start <= x
    ensures s[0].size > 0
  {
    UnionAbove(s[1..], s[0].End() + 1);
    assert Within(s[0].start, s[0]);
  }

  /** A set of naturals has one canonical form. */
  lemma {:induction false} CanonicalUnique(a: seq<Range>, b: seq<Range>)
    requires Canonical(a) && Canonical(b) && Union(a) == Union(b)
    ensures a == b
  {
    EmptyUnion(a);
    EmptyUnion(b);
    if a != [] {
      HeadOf(a);
      HeadOf(b);
      hide Union, Canonical;
      assert a[0].start == b[0].start;
      assert !Within(a[0].End(), b[0]) && !Within(b[0].End(), a[0]);
      CanonicalUnique(a[1..], b[1..]);
      assert a == [a[0]] + a[1..] && b == [b[0]] + b[1..];
    }
  }

  /** `::std::map::lower_bound`: the first entry whose key is not below `key`. */
  function LowerBound(s: seq<Range>, key: nat): (k: nat)
    ensures k <= |s|
    ensures forall i :: 0 <= i < k ==> s[i].start < key
    ensures Canonical(s) ==> forall i :: k <= i < |s| ==> key <= s[i].start
  {
    if s == [] || key <= s[0].start then 0 else 1 + LowerBound(s[1..], key)
  }

  /** Where every operation puts its cursor: at the entry that starts at `key`, else one before it. */
  function StartCursor(s: seq<Range>, key: nat): (j: nat)
    requires s != []
    ensures j < |s|
    ensures Canonical(s) ==> forall k :: 0 <= k < j ==> s[k].End() < s[j].start && s[k].End() < key
  {
    var j := LowerBound(s, key);
    if j == |s| || (s[j].start > key && j != 0) then j - 1 else j
  }

  /** Where a run of `subtract` stands: `b[..i]` is gone from `now`, entries before `j` are clear of `b[i..]`,
      and outside `b` nothing was lost. */
  ghost predicate Subtracting(was: seq<Range>, b: seq<Range>, i: nat, now: seq<Range>, j: nat) {
    && Canonical(now) && Canonical(b) && i <= |b| && j <= |now|
    && (forall k :: 0 <= k < j && i < |b| ==> now[k].End() <= b[i].start)
    && Union(now) <= Union(was) <= Union(now) + Union(b)
    && Union(now) !! Union(b[..i])
  }

  lemma SubtractStart(was: seq<Range>, b: seq<Range>)
    requires Canonical(was) && Canonical(b) && was != [] && b != []
    ensures Subtracting(was, b, 0, was, StartCursor(was, b[0].start))
  {
  }

  /** `i` is used up: it ends before entry `j` begins. */
  lemma SubtractPass(was: seq<Range>, b: seq<Range>, i: nat, now: seq<Range>, j: nat)
    requires Subtracting(was, b, i, now, j) && i < |b|
    requires j < |now| ==> b[i].End() <= now[j].start
    ensures Subtracting(was, b, i + 1, now, j)
  {
    UnionTake(b, i);
    Separated(now, j, b[i].start, b[i].End());
  }

  /** Entry `j` ends before `b[i]` begins. */
  lemma SubtractSkip(was: seq<Range>, b: seq<Range>, i: nat, now: seq<Range>, j: nat)
    requires Subtracting(was, b, i, now, j) && i < |b| && j < |now|
    requires now[j].End() <= b[i].start
    ensures Subtracting(was, b, i, now, j + 1)
  {
  }

  lemma SpliceLoses(s: seq<Range>, j: nat, mid: seq<Range>, gone: set<nat>)
    requires Canonical(s) && j < |s|
    requires Union(mid) < Points(s[j]) <= Union(mid) + gone
    ensures Union(Splice(s, j, mid)) < Union(s) <= Union(Splice(s, j, mid)) + gone
  {
    UnionSplice(s, j, mid);
    UnionBelow(s[..j], s[j].start);
    UnionAbove(s[j + 1..], s[j].End() + 1);
    hide Canonical, Splice, Union;
    var x :| x in Points(s[j]) && x !in Union(mid);
    assert x in Union(s) && x !in Union(Splice(s, j, mid));
  }

  /** Entry `j` is replaced by pieces of itself, `n` of which the cursor then passes. */
  lemma SubtractCut(was: seq<Range>, b: seq<Range>, i: nat, now: seq<Range>, j: nat, mid: seq<Range>, n: nat)
    requires Subtracting(was, b, i, now, j) && i < |b| && j < |now| && Canonical(mid) && n <= |mid|
    requires forall k :: 0 <= k < |mid| ==> now[j].start <= mid[k].start && mid[k].End() <= now[j].End()
    requires Union(mid) < Points(now[j]) <= Union(mid) + Points(b[i])
    requires forall k :: 0 <= k < n ==> mid[k].End() <= b[i].start
    ensures Subtracting(was, b, i, Splice(now, j, mid), j + n)
    ensures Union(Splice(now, j, mid)) != Union(was)
  {
    hide Union, Canonical;
    SpliceLoses(now, j, mid, Points(b[i]));
    CanonicalSplice(now, j, mid);
    UnionMember(b, i);
  }

  lemma UnionMember(b: seq<Range>, i: nat)
    requires i < |b|
    ensures Points(b[i]) <= Union(b)
  {
    UnionSplice(b, i, []);
  }

  lemma CutWhole(was: seq<Range>, b: seq<Range>, i: nat, now: seq<Range>, j: nat)
    requires Subtracting(was, b, i, now, j) && i < |b| && j < |now|
    requires b[i].start <= now[j].start && b[i].End() >= now[j].End()
    ensures Subtracting(was, b, i, Splice(now, j, []), j) && Union(Splice(now, j, [])) != Union(was)
  {
    assert Within(now[j].start, now[j]);
    SubtractCut(was, b, i, now, j, [], 0);
  }

  lemma CutMiddle(was: seq<Range>, b: seq<Range>, i: nat, now: seq<Range>, j: nat)
    requires Subtracting(was, b, i, now, j) && i < |b| && j < |now|
    requires b[i].start > now[j].start && b[i].End() < now[j].End()
    ensures
      var left, right := Range(now[j].start, b[i].start - now[j].start), Range(b[i].End(), now[j].End() - b[i].End());
      var t := Splice(now, j, [left, right]);
      Subtracting(was, b, i + 1, t, j + 1) && Union(t) != Union(was)
  {
    var left, right := Range(now[j].start, b[i].start - now[j].start), Range(b[i].End(), now[j].End() - b[i].End());
    UnionTwo(left, right);
    assert Within(b[i].start, now[j]);
    SubtractCut(was, b, i, now, j, [left, right], 1);
    SubtractPass(was, b, i, Splice(now, j, [left, right]), j + 1);
  }

  lemma CutTail(was: seq<Range>, b: seq<Range>, i: nat, now: seq<Range>, j: nat)
    requires Subtracting(was, b, i, now, j) && i < |b| && j < |now|
    requires now[j].start < b[i].start < now[j].End() <= b[i].End()
    ensures
      var t := Splice(now, j, [Range(now[j].start, b[i].start - now[j].start)]);
      Subtracting(was, b, i, t, j + 1) && Union(t) != Union(was)
  {
    var left := Range(now[j].start, b[i].start - now[j].start);
    UnionOne(left);
    assert Within(b[i].start, now[j]);
    SubtractCut(was, b, i, now, j, [left], 1);
  }

  lemma CutHead(was: seq<Range>, b: seq<Range>, i: nat, now: seq<Range>, j: nat)
    requires Subtracting(was, b, i, now, j) && i < |b| && j < |now|
    requires b[i].start <= now[j].start < b[i].End() < now[j].End()
    ensures
      var t := Splice(now, j, [Range(b[i].End(), now[j].End() - b[i].End())]);
      Subtracting(was, b, i, t, j) && Union(t) != Union(was)
  {
    var right := Range(b[i].End(), now[j].End() - b[i].End());
    UnionOne(right);
    assert Within(now[j].start, now[j]);
    SubtractCut(was, b, i, now, j, [right], 0);
  }

  lemma SubtractDone(was: seq<Range>, b: seq<Range>, i: nat, now: seq<Range>, j: nat)
    requires Subtracting(was, b, i, now, j) && (i == |b| || j == |now|)
    ensures Canonical(now) && Union(now) == Union(was) - Union(b)
    decreases |b| - i
  {
    if i == |b| {
      assert b[..i] == b;
    } else {
      SubtractPass(was, b, i, now, j);
      SubtractDone(was, b, i + 1, now, j);
    }
  }

  /** Which entries from `k` on an extension up to `end` swallows, and where the extended entry then ends. */
  function Swallow(s: seq<Range>, k: nat, end: nat): (r: (nat, nat))
    requires k <= |s|
    ensures k <= r.0 <= |s| && end <= r.1
    decreases |s| - k
  {
    if k == |s| || end < s[k].start then (k, end)
    else if s[k].End() <= end then Swallow(s, k + 1, end)
    else (k + 1, s[k].End())
  }

  /** The map after entry `j` is extended to the right up to `end`. */
  function Widened(s: seq<Range>, j: nat, end: nat): seq<Range>
    requires j < |s| && s[j].End() < end
  {
    var r := Swallow(s, j + 1, end);
    s[..j] + [Range(s[j].start, r.1 - s[j].start)] + s[r.0..]
  }

  /** A range that starts inside an extension adds nothing to it, or stretches it. */
  lemma Absorbed(r: Range, lo: nat, end: nat)
    requires lo <= r.start <= end
    ensures r.End() <= end ==> Points(r) + Points(Range(lo, end - lo)) == Points(Range(lo, end - lo))
    ensures end < r.End() ==> Points(r) + Points(Range(lo, end - lo)) == Points(Range(lo, r.End() - lo))
  {
  }

  lemma {:induction false} SwallowUnion(s: seq<Range>, k: nat, lo: nat, end: nat)
    requires Canonical(s) && k <= |s| && lo < end
    requires k < |s| ==> lo < s[k].start
    ensures
      var r := Swallow(s, k, end);
      && (r.0 < |s| ==> r.1 < s[r.0].start)
      && Union(s[k..]) + Points(Range(lo, end - lo)) == Points(Range(lo, r.1 - lo)) + Union(s[r.0..])
    decreases |s| - k
  {
    hide Within, Points, Union;
    if k < |s| && s[k].start <= end {
      UnionHead(s[k..]);
      assert s[k..][1..] == s[k + 1..];
      Absorbed(s[k], lo, end);
      if s[k].End() <= end {
        SwallowUnion(s, k + 1, lo, end);
      }
    }
  }

  lemma UnionHead(s: seq<Range>)
    requires s != []
    ensures Union(s) == Points(s[0]) + Union(s[1..])
  {
  }

  /** The entries after `j`, from where entry `j` starts. */
  lemma SwallowAfter(s: seq<Range>, j: nat, end: nat)
    requires Canonical(s) && j < |s| && s[j].End() < end
    ensures
      var r := Swallow(s, j + 1, end);
      && (r.0 < |s| ==> r.1 < s[r.0].start)
      && Points(s[j]) <= Points(Range(s[j].start, end - s[j].start))
      && Union(s[j + 1..]) + Points(Range(s[j].start, end - s[j].start))
         == Points(Range(s[j].start, r.1 - s[j].start)) + Union(s[r.0..])
  {
    SwallowUnion(s, j + 1, s[j].start, end);
  }

  lemma SwallowGap(s: seq<Range>, k: nat, end: nat)
    requires Canonical(s) && k <= |s|
    ensures var r := Swallow(s, k, end); r.0 < |s| ==> r.1 < s[r.0].start
    decreases |s| - k
  {
    if k < |s| && s[k].End() <= end { SwallowGap(s, k + 1, end); }
  }

  lemma WidenedCanonical(s: seq<Range>, j: nat, end: nat)
    requires Canonical(s) && j < |s| && s[j].End() < end
    ensures Canonical(Widened(s, j, end))
  {
    hide Union, Swallow, Canonical;
    var r := Swallow(s, j + 1, end);
    SwallowGap(s, j + 1, end);
    CanonicalSlices(s, j, r.0);
    CanonicalThree(s[..j], Range(s[j].start, r.1 - s[j].start), s[r.0..]);
  }

  lemma WidenedUnion(s: seq<Range>, j: nat, end: nat)
    requires Canonical(s) && j < |s| && s[j].End() < end
    ensures Union(Widened(s, j, end)) == Union(s) + Points(Range(s[j].start, end - s[j].start))
  {
    hide Union, Swallow, Canonical;
    var r := Swallow(s, j + 1, end);
    SwallowAfter(s, j, end);
    UnionSplice(s, j, []);
    UnionThree(s[..j], Range(s[j].start, r.1 - s[j].start), s[r.0..]);
  }

  /** Where a run of `add` stands: `b[..i]` is in `now`, and entries before `j` end before `b[i]` begins. */
  ghost predicate Adding(was: seq<Range>, b: seq<Range>, i: nat, now: seq<Range>, j: nat) {
    && Canonical(now) && Canonical(b) && i <= |b| && j <= |now|
    && (forall k :: 0 <= k < j && i < |b| ==> now[k].End() < b[i].start)
    && Union(was) + Union(b[..i]) <= Union(now) <= Union(was) + Union(b)
  }

  lemma AddStart(was: seq<Range>, b: seq<Range>)
    requires Canonical(was) && Canonical(b) && was != [] && b != []
    ensures Adding(was, b, 0, was, StartCursor(was, b[0].start))
  {
  }

  lemma InsertUnion(s: seq<Range>, j: nat, r: Range)
    requires Canonical(s) && j <= |s| && r.size > 0
    requires forall k :: 0 <= k < j ==> s[k].End() < r.start
    requires j < |s| ==> r.End() < s[j].start
    ensures Canonical(s[..j] + [r] + s[j..])
    ensures Union(s[..j] + [r] + s[j..]) == Union(s) + Points(r)
  {
    CanonicalThree(s[..j], r, s[j..]);
    hide Canonical, Union;
    UnionSplit(s, j);
    UnionThree(s[..j], r, s[j..]);
  }

  /** `b[i]` touches neither neighbour: it goes in before entry `j`. */
  lemma AddInsert(was: seq<Range>, b: seq<Range>, i: nat, now: seq<Range>, j: nat)
    requires Adding(was, b, i, now, j) && i < |b|
    requires j < |now| ==> b[i].End() < now[j].start
    ensures Adding(was, b, i + 1, now[..j] + [b[i]] + now[j..], j + 1)
  {
    InsertUnion(now, j, b[i]);
    UnionTake(b, i);
    UnionMember(b, i);
  }

  /** `b[i]` starts past every entry. */
  lemma AddAppend(was: seq<Range>, b: seq<Range>, i: nat, now: seq<Range>)
    requires Adding(was, b, i, now, |now|) && i < |b| && now != []
    ensures now[|now| - 1].End() < b[i].start
    ensures Adding(was, b, i + 1, now + [b[i]], |now| + 1)
  {
    AddInsert(was, b, i, now, |now|);
    assert now[..|now|] + [b[i]] + now[|now|..] == now + [b[i]];
  }

  lemma AddPresent(was: seq<Range>, b: seq<Range>, i: nat, now: seq<Range>, j: nat)
    requires Adding(was, b, i, now, j) && i < |b| && j < |now|
    requires now[j].start <= b[i].start && b[i].End() <= now[j].End()
    ensures Adding(was, b, i + 1, now, j)
  {
    UnionTake(b, i);
    UnionMember(now, j);
  }

  lemma AddRight(was: seq<Range>, b: seq<Range>, i: nat, now: seq<Range>, j: nat)
    requires Adding(was, b, i, now, j) && i < |b| && j < |now|
    requires b[i].start <= now[j].End() < b[i].End()
    ensures Canonical(now) && Adding(was, b, i, Widened(now, j, b[i].End()), j)
    ensures
      var t := Widened(now, j, b[i].End());
      j < |t| <= |now| && b[i].End() <= t[j].End() && t[j].start == now[j].start
  {
    WidenedCanonical(now, j, b[i].End());
    WidenedUnion(now, j, b[i].End());
    UnionMember(now, j);
    UnionMember(b, i);
  }

  /** An entry extended to the left. */
  lemma LeftUnion(s: seq<Range>, j: nat, r: Range)
    requires Canonical(s) && j < |s| && r.start < s[j].start && r.End() == s[j].End()
    requires forall k :: 0 <= k < j ==> s[k].End() < r.start
    ensures Canonical(s[j := r]) && Union(s[j := r]) == Union(s) + Points(r)
  {
    assert s[j := r] == s[..j] + [r] + s[j + 1..] == Splice(s, j, [r]);
    CanonicalSlices(s, j, j + 1);
    CanonicalThree(s[..j], r, s[j + 1..]);
    assert Points(s[j]) <= Points(r);
    hide Canonical, Union, Points;
    UnionSplice(s, j, [r]);
    UnionOne(r);
  }

  lemma AddLeft(was: seq<Range>, b: seq<Range>, i: nat, now: seq<Range>, j: nat)
    requires Adding(was, b, i, now, j) && i < |b| && j < |now|
    requires b[i].start < now[j].start <= b[i].End() <= now[j].End()
    ensures Adding(was, b, i, now[j := Range(b[i].start, now[j].size + now[j].start - b[i].start)], j)
  {
    var one := Range(b[i].start, now[j].size + now[j].start - b[i].start);
    assert Points(one) == Points(b[i]) + Points(now[j]);
    hide Canonical, Union, Points;
    LeftUnion(now, j, one);
    UnionMember(now, j);
    UnionMember(b, i);
  }

  lemma AddSkip(was: seq<Range>, b: seq<Range>, i: nat, now: seq<Range>, j: nat)
    requires Adding(was, b, i, now, j) && i < |b| && j < |now| && now[j].End() < b[i].start
    ensures Adding(was, b, i, now, j + 1)
  {
  }

  lemma AddDone(was: seq<Range>, b: seq<Range>, now: seq<Range>, j: nat)
    requires Adding(was, b, |b|, now, j)
    ensures Canonical(now) && Union(now) == Union(was) + Union(b)
  {
    assert b[..|b|] == b;
  }

  /** How far `i` sticks out of `r` on both sides: what each extension of an entry brings to zero on one side. */
  function Reach(i: Range, r: Range): nat {
    (if i.End() > r.End() then i.End() - r.End() else 0) + (if i.start < r.start then r.start - i.start else 0)
  }

  class RangeMap {
    var ranges: seq<Range>

    ghost predicate Valid()
      reads this
    {
      Canonical(ranges)
    }

    ghost function Contents(): set<nat>
      reads this
    {
      Union(ranges)
    }

    constructor ()
      ensures ranges == []
    {
      ranges := [];
    }

    method Clear()
      modifies this
      ensures ranges == [] && Valid() && Contents() == {}
    {
      ranges := [];
    }

    /** `subtract(a, pair)`. */
    method Subtract(i: Range)
      requires Valid() && i.size > 0
      modifies this
      ensures Valid() && Contents() == old(Contents()) - Points(i)
    {
      hide Subtracting, Canonical, Union, Points;
      if ranges == [] {
        EmptyUnion(ranges);
        return;
      }
      ghost var was, b := ranges, [i];
      UnionOne(i);
      SubtractStart(was, b);
      var j: nat := StartCursor(ranges, i.start);
      while j < |ranges|
        invariant j <= |ranges| && Subtracting(was, b, 0, ranges, j)
        decreases |ranges| - j, if j < |ranges| then ranges[j].size else 0
      {
        var r := ranges[j];
        if i.End() <= r.start {
          SubtractPass(was, b, 0, ranges, j);
          SubtractDone(was, b, 1, ranges, j);
          return;
        } else if i.start <= r.start && i.End() >= r.End() {
          CutWhole(was, b, 0, ranges, j);
          ranges := Splice(ranges, j, []);
        } else if i.start > r.start && i.End() < r.End() {
          CutMiddle(was, b, 0, ranges, j);
          ranges := Splice(ranges, j, [Range(r.start, i.start - r.start), Range(i.End(), r.End() - i.End())]);
          SubtractDone(was, b, 1, ranges, j + 1);
          return;
        } else if i.start < r.End() && i.start > r.start && i.End() >= r.End() {
          CutTail(was, b, 0, ranges, j);
          ranges := Splice(ranges, j, [Range(r.start, i.start - r.start)]);
          j := j + 1;
        } else if i.start <= r.start && i.End() < r.End() {
          CutHead(was, b, 0, ranges, j);
          ranges := Splice(ranges, j, [Range(i.End(), r.End() - i.End())]);
        } else {
          SubtractSkip(was, b, 0, ranges, j);
          j := j + 1;
        }
      }
      SubtractDone(was, b, 0, ranges, j);
    }

    /** `subtract(a, b)`: the bulk form. The branch that shortens an entry from the left moves neither cursor. */
    method SubtractAll(b: seq<Range>) returns (changed: bool)
      requires Valid() && Canonical(b) && b != []
      modifies this
      ensures Valid() && Contents() == old(Contents()) - Union(b)
      ensures changed <==> Contents() != old(Contents())
    {
      hide Subtracting, Canonical;
      if ranges == [] { return false; }
      ghost var was := ranges;
      SubtractStart(was, b);
      var i: nat, j: nat := 0, StartCursor(ranges, b[0].start);
      changed := false;
      while i < |b| && j < |ranges|
        invariant i <= |b| && j <= |ranges| && Subtracting(was, b, i, ranges, j)
        invariant changed <==> Contents() != Union(was)
        decreases |b| - i, |ranges| - j, if j < |ranges| then ranges[j].size else 0
      {
        var r, q := ranges[j], b[i];
        if q.End() <= r.start {
          SubtractPass(was, b, i, ranges, j);
          i := i + 1;
        } else if q.start <= r.start && q.End() >= r.End() {
          CutWhole(was, b, i, ranges, j);
          ranges := Splice(ranges, j, []);
          changed := true;
        } else if q.start > r.start && q.End() < r.End() {
          CutMiddle(was, b, i, ranges, j);
          ranges := Splice(ranges, j, [Range(r.start, q.start - r.start), Range(q.End(), r.End() - q.End())]);
          i, j := i + 1, j + 1;
          changed := true;
        } else if q.start < r.End() && q.start > r.start && q.End() >= r.End() {
          CutTail(was, b, i, ranges, j);
          ranges := Splice(ranges, j, [Range(r.start, q.start - r.start)]);
          j := j + 1;
          changed := true;
        } else if q.start <= r.start && q.End() < r.End() {
          CutHead(was, b, i, ranges, j);
          ranges := Splice(ranges, j, [Range(q.End(), r.End() - q.End())]);
          changed := true;
        } else {
          SubtractSkip(was, b, i, ranges, j);
          j := j + 1;
        }
      }
      SubtractDone(was, b, i, ranges, j);
    }

    /** The inner loop shared by both forms of `add`: entry `j` grows to `end` and takes in what it now meets. */
    method ExtendRight(j: nat, end: nat)
      requires Valid() && j < |ranges| && ranges[j].End() < end
      modifies this
      ensures ranges == Widened(old(ranges), j, end)
    {
      hide Canonical;
      ghost var was, k: nat := ranges, j + 1;
      var r := Range(ranges[j].start, end - ranges[j].start);
      ranges := ranges[j := r];
      while j + 1 < |ranges|
        invariant j + 1 <= k <= |was| && ranges == was[..j] + [r] + was[k..]
        invariant Swallow(was, k, end) == Swallow(was, j + 1, end)
        decreases |ranges|
      {
        var next := ranges[j + 1];
        if next.End() <= end {
          ranges := ranges[..j + 1] + ranges[j + 2..];
          k := k + 1;
        } else if next.start > end {
          break;
        } else {
          ranges := ranges[..j] + [Range(r.start, r.size + (next.End() - end))] + ranges[j + 2..];
          break;
        }
      }
    }

    /** `add(a, pair)`. */
    method Add(i: Range)
      requires Valid() && i.size > 0
      modifies this
      ensures Valid() && Contents() == old(Contents()) + Points(i)
    {
      hide Adding, Canonical;
      UnionOne(i);
      if ranges == [] {
        ranges := [i];
        return;
      }
      ghost var was, b := ranges, [i];
      AddStart(was, b);
      var j: nat := StartCursor(ranges, i.start);
      while j < |ranges|
        invariant j <= |ranges| != 0 && Adding(was, b, 0, ranges, j)
        decreases |ranges| - j, if j < |ranges| then Reach(i, ranges[j]) else 0
      {
        var r := ranges[j];
        if i.End() < r.start {
          AddInsert(was, b, 0, ranges, j);
          ranges := ranges[..j] + [i] + ranges[j..];
          AddDone(was, b, ranges, j + 1);
          return;
        } else if i.start >= r.start && i.End() <= r.End() {
          AddPresent(was, b, 0, ranges, j);
          AddDone(was, b, ranges, j);
          return;
        } else if i.start <= r.End() && i.End() > r.End() {
          AddRight(was, b, 0, ranges, j);
          ExtendRight(j, i.End());
        } else if i.start < r.start {
          AddLeft(was, b, 0, ranges, j);
          ranges := ranges[j := Range(i.start, r.size + r.start - i.start)];
        } else {
          AddSkip(was, b, 0, ranges, j);
          j := j + 1;
        }
      }
      AddAppend(was, b, 0, ranges);
      if ranges[|ranges| - 1].End() < i.start {
        ranges := ranges + [i];
      }
      AddDone(was, b, ranges, j + 1);
    }

    /** `add(a, b)`: the bulk form. */
    method AddAll(b: seq<Range>)
      requires Valid() && Canonical(b) && b != []
      modifies this
      ensures Valid() && Contents() == old(Contents()) + Union(b)
    {
      hide Adding, Canonical;
      if ranges == [] {
        for k := 0 to |b|
          invariant ranges == b[..k]
        {
          ranges := ranges + [b[k]];
        }
        assert b[..|b|] == b;
        return;
      }
      ghost var was := ranges;
      AddStart(was, b);
      var i: nat, j: nat := 0, StartCursor(ranges, b[0].start);
      while i < |b| && j < |ranges|
        invariant i <= |b| && j <= |ranges| != 0 && Adding(was, b, i, ranges, j)
        decreases |b| - i, |ranges| - j, if i < |b| && j < |ranges| then Reach(b[i], ranges[j]) else 0
      {
        var r, q := ranges[j], b[i];
        if q.End() < r.start {
          AddInsert(was, b, i, ranges, j);
          ranges := ranges[..j] + [q] + ranges[j..];
          i, j := i + 1, j + 1;
        } else if q.start >= r.start && q.End() <= r.End() {
          AddPresent(was, b, i, ranges, j);
          i := i + 1;
        } else if q.start <= r.End() && q.End() > r.End() {
          AddRight(was, b, i, ranges, j);
          ExtendRight(j, q.End());
        } else if q.start < r.start {
          AddLeft(was, b, i, ranges, j);
          ranges := ranges[j := Range(q.start, r.size + r.start - q.start)];
        } else {
          AddSkip(was, b, i, ranges, j);
          j := j + 1;
        }
      }
      while i < |b|
        invariant i <= |b| && j <= |ranges| != 0 && Adding(was, b, i, ranges, j)
        invariant i < |b| ==> j == |ranges|
      {
        AddAppend(was, b, i, ranges);
        if ranges[|ranges| - 1].End() < b[i].start {
          ranges := ranges + [b[i]];
        }
        i, j := i + 1, j + 1;
      }
      AddDone(was, b, ranges, j);
    }

    /** `find(a, x)` is membership. */
    predicate Find(x: nat)
      requires Valid()
      reads this
      ensures Find(x) <==> x in Contents()
    {
      if ranges == [] then false
      else
        var j := LowerBound(ranges, x);
        if j != |ranges| && ranges[j].start != x && j == 0 then
          FindClear(ranges, 0, x);
          false
        else
          var k := if j == |ranges| || ranges[j].start != x then j - 1 else j;
          FindClear(ranges, k, x);
          ranges[k].start == x || ranges[k].End() > x
    }
  }

  /** The only entry that can hold `x` is the last one that does not start past it. */
  lemma FindClear(s: seq<Range>, k: nat, x: nat)
    requires Canonical(s) && k < |s|
    requires k == 0 || s[k].start <= x
    requires forall i :: k < i < |s| ==> x < s[i].start
    ensures x in Union(s) <==> Within(x, s[k])
  {
    UnionSplice(s, k, []);
    UnionBelow(s[..k], s[k].start);
    UnionAbove(s[k + 1..], x + 1);
  }

  /** `end` is what the single calls for `b`, one after the other, can leave of `was`. */
  ghost predicate Folded(was: seq<Range>, b: seq<Range>, end: seq<Range>, adding: bool)
    decreases |b|
  {
    if b == [] then end == was
    else exists mid ::
           && Canonical(mid)
           && Union(mid) == (if adding then Union(was) + Points(b[0]) else Union(was) - Points(b[0]))
           && Folded(mid, b[1..], end, adding)
  }

  /** The bulk forms are the single forms folded over `b`. */
  lemma {:induction false} FoldIsBulk(was: seq<Range>, b: seq<Range>, folded: seq<Range>, bulk: seq<Range>, adding: bool)
    requires Canonical(was) && Folded(was, b, folded, adding)
    requires Canonical(bulk)
    requires Union(bulk) == if adding then Union(was) + Union(b) else Union(was) - Union(b)
    ensures folded == bulk
    decreases |b|
  {
    if b == [] {
      CanonicalUnique(was, bulk);
    } else {
      var mid :|
        && Canonical(mid)
        && Union(mid) == (if adding then Union(was) + Points(b[0]) else Union(was) - Points(b[0]))
        && Folded(mid, b[1..], folded, adding);
      FoldIsBulk(mid, b[1..], folded, bulk, adding);
    }
  }
}
