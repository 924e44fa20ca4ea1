/** Handing the remaining complexities out to the peers. */
module Distribution {
  import opened Arithmetic
  import opened Ranges

  function Span(start: nat, n: nat): (r: seq<nat>)
    ensures |r| == n && forall k :: 0 <= k < n ==> r[k] == start + k
  {
    seq(n, k => start + k)
  }

  /** The units of a map in ascending order. */
  function Units(s: seq<Range>): seq<nat> {
    if s == [] then [] else Span(s[0].start, s[0].size) + Units(s[1..])
  }

  lemma UnitsConcat(a: seq<Range>, b: seq<Range>)
    ensures Units(a + b) == Units(a) + Units(b)
  {
    if a == [] {
      assert a + b == b;
    } else {
      assert (a + b)[1..] == a[1..] + b;
      UnitsConcat(a[1..], b);
    }
  }

  lemma UnitsOne(r: Range)
    ensures Units([r]) == Span(r.start, r.size)
  {
    assert [r][1..] == [];
  }

  /** The units are the points of the map. */
  lemma UnitsAreUnion(s: seq<Range>)
    ensures forall x :: x in Units(s) <==> x in Union(s)
  {
    if s != [] {
      UnitsAreUnion(s[1..]);
      forall x ensures x in Span(s[0].start, s[0].size) <==> x in Points(s[0]) {
        if x in Points(s[0]) { assert Span(s[0].start, s[0].size)[x - s[0].start] == x; }
      }
    }
  }

  /** Chunk of a range, by its position among all units. */
  lemma ChunkUnits(s: seq<Range>, i: nat, from: nat, chunk: nat)
    requires i < |s| && from + chunk <= s[i].size
    ensures
      var at := |Units(s[..i])| + from;
      at + chunk <= |Units(s)| && Units(s)[at..at + chunk] == Span(s[i].start + from, chunk)
  {
    assert s == s[..i] + ([s[i]] + s[i + 1..]);
    UnitsConcat(s[..i], [s[i]] + s[i + 1..]);
    UnitsConcat([s[i]], s[i + 1..]);
    UnitsOne(s[i]);
  }

  lemma UnitsTake(s: seq<Range>, i: nat)
    requires i < |s|
    ensures |Units(s[..i + 1])| == |Units(s[..i])| + s[i].size
    ensures |Units(s[..i])| + s[i].size <= |Units(s)|
    ensures i + 1 == |s| ==> |Units(s)| == |Units(s[..i])| + s[i].size
  {
    assert s[..i + 1] == s[..i] + [s[i]] && s == s[..i + 1] + s[i + 1..];
    UnitsConcat(s[..i], [s[i]]);
    UnitsConcat(s[..i + 1], s[i + 1..]);
    UnitsOne(s[i]);
  }

  /** What peer `j` of `peers` must get: its slice of the units, or one unit in turn if there are more peers than units. */
  function Due(units: seq<nat>, peers: nat, j: nat): seq<nat>
    requires units != [] && j < peers
  {
    var per := |units| / peers;
    if per == 0 then [units[j % |units|]]
    else
      DueFits(|units|, peers, j);
      units[j * per..(j + 1) * per]
  }

  /** With fewer units than peers each gets one, in turn: the first peer the first unit, and so on, over and over. */
  lemma DueInTurn(units: seq<nat>, peers: nat, j: nat)
    requires units != [] && |units| < peers && j < peers
    ensures j < |units| ==> Due(units, peers, j) == [units[j]]
    ensures j + |units| < peers ==> Due(units, peers, j + |units|) == Due(units, peers, j)
  {
    var n := |units|;
    DivUnique(0, peers, n);
    if j < n { DivUnique(0, n, j); }
    RoundAgain(j, n);
  }

  lemma RoundAgain(j: nat, n: nat)
    requires n > 0
    ensures (j + n) % n == j % n
  {
    var q, r := j / n, j % n;
    MulAdd(q, 1, n);
    DivUnique(q + 1, n, r);
  }

  lemma DueFits(total: nat, peers: nat, j: nat)
    requires j < peers
    ensures (j + 1) * (total / peers) == j * (total / peers) + total / peers
    ensures (j + 1) * (total / peers) <= peers * (total / peers) <= total
  {
    MulMono(j + 1, peers, total / peers);
  }

  /** A share is taken from what remains. */
  lemma DueRemains(s: seq<Range>, peers: nat, j: nat)
    requires Units(s) != [] && j < peers
    ensures forall x :: x in Due(Units(s), peers, j) ==> x in Union(s)
  {
    UnitsAreUnion(s);
    DueFits(|Units(s)|, peers, j);
  }

  /** With at least as many units as peers, each peer's share lies before the next one's. */
  lemma DueAscend(s: seq<Range>, peers: nat, j: nat, k: nat)
    requires Canonical(s) && j < k < peers <= |Units(s)|
    ensures forall x, y :: x in Due(Units(s), peers, j) && y in Due(Units(s), peers, k) ==> x < y
  {
    var u := Units(s);
    var per := |u| / peers;
    PerPositive(|u|, peers);
    DueFits(|u|, peers, j);
    DueFits(|u|, peers, k);
    MulMono(j + 1, k, per);
    UnitsAscend(s);
    SlicesAscend(u, j * per, (j + 1) * per, k * per, (k + 1) * per);
  }

  lemma SlicesAscend(u: seq<nat>, a: nat, b: nat, c: nat, d: nat)
    requires a <= b <= c <= d <= |u| && forall i, j :: 0 <= i < j < |u| ==> u[i] < u[j]
    ensures forall x, y :: x in u[a..b] && y in u[c..d] ==> x < y
  {
  }

  lemma PerPositive(total: nat, peers: nat)
    requires 0 < peers <= total
    ensures total / peers >= 1
  {
    DivMono(peers, total, peers);
  }

  lemma UnitsAscend(s: seq<Range>)
    requires Canonical(s)
    ensures forall a, b :: 0 <= a < b < |Units(s)| ==> Units(s)[a] < Units(s)[b]
  {
    if s != [] {
      UnitsAscend(s[1..]);
      UnitsAreUnion(s[1..]);
      UnionAbove(s[1..], s[0].End() + 1);
      forall b | 0 <= b < |Units(s[1..])| ensures s[0].End() < Units(s[1..])[b] {
        assert Units(s[1..])[b] in Units(s[1..]);
      }
    }
  }

  /** Every unit but the remainder goes to somebody. */
  lemma DueCovers(units: seq<nat>, peers: nat, k: nat) returns (j: nat)
    requires units != [] && peers > 0 && k < |units|
    requires peers <= |units| ==> k < |units| - |units| % peers
    ensures j < peers && units[k] in Due(units, peers, j)
  {
    if peers <= |units| {
      j := DueCoversSlice(units, peers, k);
    } else {
      j := k;
      assert |units| / peers == 0;
    }
  }

  lemma DueCoversSlice(units: seq<nat>, peers: nat, k: nat) returns (j: nat)
    requires 0 < peers <= |units| && k < |units| - |units| % peers
    ensures j < peers && units[k] in Due(units, peers, j)
  {
    PerPositive(|units|, peers);
    var per := |units| / peers;
    assert |units| - |units| % peers == peers * per;
    SplitTop(k, per, peers);
    j := k / per;
    DueFits(|units|, peers, j);
    SliceHas(units, j * per, (j + 1) * per, k);
  }

  lemma SliceHas(u: seq<nat>, a: nat, b: nat, k: nat)
    requires a <= k < b <= |u|
    ensures u[k] in u[a..b]
  {
    assert u[a..b][k - a] == u[k];
  }

  /** Every peer gets the same number of units. */
  lemma DueSize(units: seq<nat>, peers: nat, j: nat)
    requires units != [] && j < peers
    ensures |Due(units, peers, j)| == if peers <= |units| then |units| / peers else 1
  {
    DueFits(|units|, peers, j);
    if peers <= |units| {
      PerPositive(|units|, peers);
    } else {
      assert |units| / peers == 0;
    }
  }

  /** With at least as many units as peers, exactly the last `|units| % peers` of them are nobody's. */
  lemma LeftOver(s: seq<Range>, peers: nat, k: nat)
    requires Canonical(s) && 0 < peers <= |Units(s)| && k < |Units(s)|
    ensures Units(s) != []
    ensures (exists j :: 0 <= j < peers && Units(s)[k] in Due(Units(s), peers, j)) <==> k < |Units(s)| - |Units(s)| % peers
  {
    var u := Units(s);
    if k < |u| - |u| % peers {
      var j := DueCovers(u, peers, k);
    } else {
      PerPositive(|u|, peers);
      assert |u| - |u| % peers == peers * (|u| / peers);
      UnitsAscend(s);
      forall j | 0 <= j < peers ensures u[k] !in Due(u, peers, j) {
        DueFits(|u|, peers, j);
        NotBefore(u, j * (|u| / peers), (j + 1) * (|u| / peers), k);
      }
    }
  }

  lemma NotBefore(u: seq<nat>, a: nat, b: nat, k: nat)
    requires a <= b <= k < |u| && forall i, j :: 0 <= i < j < |u| ==> u[i] < u[j]
    ensures u[k] !in u[a..b]
  {
    forall i | 0 <= i < b - a ensures u[a..b][i] != u[k] {
      assert u[a..b][i] == u[a + i] < u[k];
    }
  }

  // ----- The loop -----

  function Per(total: nat, peers: nat): (per: nat)
    requires peers > 0
    ensures per >= 1
  {
    if total / peers == 0 then 1 else total / peers
  }

  ghost predicate Served(s: seq<Range>, peers: nat, shares: seq<seq<Range>>, n: nat)
    requires peers > 0 && n <= |shares| <= peers && Units(s) != []
  {
    forall k :: 0 <= k < n ==> Canonical(shares[k]) && Units(shares[k]) == Due(Units(s), peers, k)
  }

  /** Where the loop stands: the peers before the last have their due, the last has all but `left` units of its own, and
      the next unit is the one at position `used` of range `i`. */
  ghost predicate Dealing(s: seq<Range>, peers: nat, shares: seq<seq<Range>>, i: nat, used: nat, left: nat)
    requires peers > 0
  {
    && Canonical(s) && Units(s) != [] && i < |s| && used < s[i].size
    && 0 < |shares| <= peers && 1 <= left <= Per(|Units(s)|, peers)
    && Served(s, peers, shares, |shares| - 1)
    && var share, j := shares[|shares| - 1], |shares| - 1;
    && if peers <= |Units(s)| then Slicing(s, Per(|Units(s)|, peers), share, j, i, used, left)
       else share == [] && |Units(s[..i])| + used == j % |Units(s)|
  }

  /** The last peer while it gets a slice. */
  ghost predicate Slicing(s: seq<Range>, per: nat, share: seq<Range>, j: nat, i: nat, used: nat, left: nat)
    requires Canonical(s) && i < |s| && used < s[i].size && left <= per
  {
    var at := j * per + (per - left);
    && at == |Units(s[..i])| + used && at <= |Units(s)|
    && Canonical(share) && Units(share) == Units(s)[j * per..at]
    && (share != [] ==> used == 0 && share[|share| - 1].End() < s[i].start)
  }

  /** A chunk added to a slice. */
  lemma SliceChunk(s: seq<Range>, per: nat, share: seq<Range>, j: nat, i: nat, used: nat, left: nat, chunk: nat)
    requires Canonical(s) && i < |s| && used < s[i].size && left <= per
    requires Slicing(s, per, share, j, i, used, left) && 0 < chunk <= left && used + chunk <= s[i].size
    ensures Sliced(s, per, share + [Range(s[i].start + used, chunk)], j, per - left + chunk)
    ensures j * per + (per - left) + chunk == |Units(s[..i])| + used + chunk
  {
    hide Canonical, Units;
    ChunkUnits(s, i, used, chunk);
    var r := Range(s[i].start + used, chunk);
    UnitsConcat(share, [r]);
    UnitsOne(r);
    var lo, at := j * per, j * per + (per - left);
    SliceJoin(Units(s), lo, at, at + chunk);
    OneCanonical(share, r);
  }

  lemma SliceJoin(u: seq<nat>, a: nat, b: nat, c: nat)
    requires a <= b <= c <= |u|
    ensures u[a..c] == u[a..b] + u[b..c]
  {
  }

  lemma OneCanonical(share: seq<Range>, r: Range)
    requires Canonical(share) && r.size > 0 && (share != [] ==> share[|share| - 1].End() < r.start)
    ensures Canonical(share + [r])
  {
  }

  /** Peer `j` has the first `n` units of its slice. */
  ghost predicate Sliced(s: seq<Range>, per: nat, share: seq<Range>, j: nat, n: nat) {
    Canonical(share) && j * per + n <= |Units(s)| && Units(share) == Units(s)[j * per..j * per + n]
  }

  lemma SlicedDue(s: seq<Range>, peers: nat, share: seq<Range>, j: nat)
    requires j < peers <= |Units(s)| && Sliced(s, Per(|Units(s)|, peers), share, j, Per(|Units(s)|, peers))
    ensures Canonical(share) && Units(s) != [] && Units(share) == Due(Units(s), peers, j)
  {
    hide Canonical, Units;
    PerPositive(|Units(s)|, peers);
    DueFits(|Units(s)|, peers, j);
  }

  lemma TurnDue(s: seq<Range>, peers: nat, i: nat, used: nat, j: nat)
    requires |Units(s)| < peers && j < peers && i < |s| && used < s[i].size && Units(s) != []
    requires |Units(s[..i])| + used == j % |Units(s)|
    ensures var share := [] + [Range(s[i].start + used, 1)];
            Canonical(share) && Units(share) == Due(Units(s), peers, j)
  {
    hide Units;
    assert |Units(s)| / peers == 0;
    ChunkUnits(s, i, used, 1);
    var r := Range(s[i].start + used, 1);
    UnitsOne(r);
    assert [] + [r] == [r];
    var u, at := Units(s), j % |Units(s)|;
    assert u[at..at + 1] == [u[at]];
    assert Span(r.start, 1) == [r.start];
  }

  /** One round of the loop, as far as the share is concerned. */
  lemma DealChunk(s: seq<Range>, peers: nat, shares: seq<seq<Range>>, i: nat, used: nat, left: nat, chunk: nat)
    requires peers > 0 && Dealing(s, peers, shares, i, used, left)
    requires chunk == (if left < s[i].size - used then left else s[i].size - used)
    ensures
      var j, per := |shares| - 1, Per(|Units(s)|, peers);
      var more := shares[j := shares[j] + [Range(s[i].start + used, chunk)]];
      && Served(s, peers, more, j)
      && (left == chunk ==> Served(s, peers, more, j + 1))
      && (peers <= |Units(s)| ==>
            && Sliced(s, per, more[j], j, per - left + chunk)
            && j * per + (per - left) + chunk == |Units(s[..i])| + used + chunk)
      && (|Units(s)| < peers ==> left == chunk == 1 && |Units(s[..i])| + used == j % |Units(s)|)
  {
    hide Canonical, Units, Due, Slicing, Sliced;
    var j := |shares| - 1;
    if peers <= |Units(s)| {
      SliceChunk(s, Per(|Units(s)|, peers), shares[j], j, i, used, left, chunk);
      if left == chunk { SlicedDue(s, peers, shares[j] + [Range(s[i].start + used, chunk)], j); }
    } else {
      DivUnique(0, peers, |Units(s)|);
      TurnDue(s, peers, i, used, j);
    }
  }

  lemma DealFacts(s: seq<Range>, peers: nat, shares: seq<seq<Range>>, i: nat, used: nat, left: nat)
    requires peers > 0 && Dealing(s, peers, shares, i, used, left)
    ensures i < |s| && used < s[i].size && 0 < |shares| <= peers && 0 < left <= Per(|Units(s)|, peers)
    ensures forall k :: 0 <= k < |s| ==> s[k].size > 0
  {
  }

  /** The next range for the same peer. */
  lemma DealOn(s: seq<Range>, peers: nat, shares: seq<seq<Range>>, i: nat, used: nat, left: nat, chunk: nat)
    requires peers > 0 && Dealing(s, peers, shares, i, used, left)
    requires chunk == s[i].size - used < left && i + 1 < |s|
    ensures
      var j := |shares| - 1;
      var more := shares[j := shares[j] + [Range(s[i].start + used, chunk)]];
      Dealing(s, peers, more, i + 1, 0, left - chunk)
  {
    hide Canonical, Units, Due, Sliced, Slicing, Served;
    DealChunk(s, peers, shares, i, used, left, chunk);
    DealFacts(s, peers, shares, i, used, left);
    UnitsTake(s, i);
    var j := |shares| - 1;
    var more := shares[j := shares[j] + [Range(s[i].start + used, chunk)]];
    assert more[j] == shares[j] + [Range(s[i].start + used, chunk)];
    if peers <= |Units(s)| { SliceOn(s, Per(|Units(s)|, peers), more[j], shares[j], j, i, used, left, chunk); }
  }

  /** The slice goes on with the next range. */
  lemma SliceOn(s: seq<Range>, per: nat, more: seq<Range>, share: seq<Range>, j: nat, i: nat, used: nat, left: nat, chunk: nat)
    requires Canonical(s) && i + 1 < |s| && used < s[i].size && chunk == s[i].size - used < left <= per
    requires Sliced(s, per, more, j, per - left + chunk) && more == share + [Range(s[i].start + used, chunk)]
    requires j * per + (per - left) + chunk == |Units(s[..i + 1])|
    ensures s[i + 1].size > 0 && Slicing(s, per, more, j, i + 1, 0, left - chunk)
  {
    hide Units;
  }

  /** The next peer, from where the last one stopped, or from the start again when the map is used up. */
  lemma DealNext(s: seq<Range>, peers: nat, shares: seq<seq<Range>>, i: nat, used: nat, left: nat, chunk: nat)
    requires peers > 0 && Dealing(s, peers, shares, i, used, left) && |shares| < peers
    requires chunk == left <= s[i].size - used || (chunk == s[i].size - used < left && i + 1 == |s|)
    ensures
      var j := |shares| - 1;
      var more := shares[j := shares[j] + [Range(s[i].start + used, chunk)]] + [[]];
      var on := used + chunk == s[i].size;
      && chunk == left
      && Dealing(s, peers, more, if !on then i else if i + 1 == |s| then 0 else i + 1, if on then 0 else used + chunk,
                 Per(|Units(s)|, peers))
  {
    hide Canonical, Units, Due, Sliced, Slicing, Served;
    DealChunk(s, peers, shares, i, used, left, chunk);
    DealFacts(s, peers, shares, i, used, left);
    UnitsTake(s, i);
    if i + 1 < |s| { UnitsTake(s, i + 1); }
    UnitsStart(s);
    var j, per := |shares| - 1, Per(|Units(s)|, peers);
    var on := used + chunk == s[i].size;
    var i', used' := if !on then i else if i + 1 == |s| then 0 else i + 1, if on then 0 else used + chunk;
    if peers <= |Units(s)| {
      PerPositive(|Units(s)|, peers);
      NotUsedUp(|Units(s)|, peers, j);
      DueFits(|Units(s)|, peers, j);
      NewSlice(s, per, j + 1, i', used');
    } else {
      NextTurn(|Units(s)|, j);
    }
    ServedMore(s, peers, shares[j := shares[j] + [Range(s[i].start + used, chunk)]]);
  }

  lemma UnitsStart(s: seq<Range>)
    ensures Units(s[..0]) == []
  {
    assert s[..0] == [];
  }

  lemma ServedMore(s: seq<Range>, peers: nat, shares: seq<seq<Range>>)
    requires Units(s) != [] && |shares| < peers && Served(s, peers, shares, |shares|)
    ensures Served(s, peers, shares + [[]], |shares|)
  {
    hide Units, Canonical;
  }

  lemma NewSlice(s: seq<Range>, per: nat, j: nat, i: nat, used: nat)
    requires Canonical(s) && i < |s| && used < s[i].size && j * per == |Units(s[..i])| + used && j * per <= |Units(s)|
    ensures Slicing(s, per, [], j, i, used, per)
  {
    assert Units([]) == [];
  }

  lemma NotUsedUp(total: nat, peers: nat, j: nat)
    requires 0 < peers <= total && j + 1 < peers
    ensures (j + 1) * (total / peers) < total
  {
    PerPositive(total, peers);
    MulLess(j + 1, peers, total / peers);
    DueFits(total, peers, j);
  }

  lemma NextTurn(total: nat, j: nat)
    requires total > 0
    ensures (j + 1) % total == if j % total + 1 == total then 0 else j % total + 1
  {
    if j % total + 1 == total {
      DivUnique(j / total + 1, total, 0);
      assert j + 1 == (j / total + 1) * total;
    } else {
      DivUnique(j / total, total, j % total + 1);
      assert j + 1 == j % total + 1 + j / total * total;
    }
  }

  /** The last peer has its due when its share is full or the map is used up. */
  lemma DealLast(s: seq<Range>, peers: nat, shares: seq<seq<Range>>, i: nat, used: nat, left: nat, chunk: nat)
    requires peers > 0 && Dealing(s, peers, shares, i, used, left) && |shares| == peers
    requires chunk == (if left < s[i].size - used then left else s[i].size - used)
    requires chunk == left || i + 1 == |s|
    ensures Served(s, peers, shares[peers - 1 := shares[peers - 1] + [Range(s[i].start + used, chunk)]], peers)
  {
    hide Canonical, Units, Due, Sliced, Slicing, Served;
    DealChunk(s, peers, shares, i, used, left, chunk);
    DealFacts(s, peers, shares, i, used, left);
    UnitsTake(s, i);
    if peers <= |Units(s)| {
      PerPositive(|Units(s)|, peers);
      DueFits(|Units(s)|, peers, peers - 1);
    }
  }

  lemma DealStart(s: seq<Range>, peers: nat)
    requires Canonical(s) && s != [] && peers > 0
    ensures Units(s) != [] && Dealing(s, peers, [[]], 0, 0, Per(|Units(s)|, peers))
  {
    UnitsTake(s, 0);
    assert Units([]) == [] && s[..0] == [];
  }

  /** The first loop of `do_redistribute_remaining_peers_complexities`. */
  method TotalSize(s: seq<Range>) returns (total: nat)
    ensures total == |Units(s)|
  {
    total := 0;
    for k := 0 to |s|
      invariant total == |Units(s[..k])|
    {
      UnitsTake(s, k);
      total := total + s[k].size;
    }
    assert s[..|s|] == s;
  }

  /** `do_redistribute_remaining_peers_complexities`: the maps of the peers, in order. */
  method Deal(s: seq<Range>, peers: nat) returns (shares: seq<seq<Range>>)
    requires Canonical(s) && s != [] && peers > 0
    ensures |shares| == peers && Units(s) != []
    ensures forall j :: 0 <= j < peers ==> Canonical(shares[j]) && Units(shares[j]) == Due(Units(s), peers, j)
  {
    hide Units, Slicing, Due, Canonical, Dealing;
    var total := TotalSize(s);
    var per := Per(total, peers);
    DealStart(s, peers);
    DealFacts(s, peers, [[]], 0, 0, per);
    var i: nat, availI: nat, availPeer: nat := 0, s[0].size, per;
    shares := [[]];
    while true
      invariant i < |s| && 0 < availI <= s[i].size && Dealing(s, peers, shares, i, s[i].size - availI, availPeer)
      decreases peers - |shares|, availPeer
    {
      DealFacts(s, peers, shares, i, s[i].size - availI, availPeer);
      ghost var before, at, used, left := shares, i, s[i].size - availI, availPeer;
      var j := |shares| - 1;
      var chunk := if availPeer < availI then availPeer else availI;
      shares := shares[j := shares[j] + [Range(s[i].start + s[i].size - availI, chunk)]];
      availI := availI - chunk;
      if availI == 0 {
        if i + 1 == |s| {
          if j + 1 == peers {
            DealLast(s, peers, before, at, used, left, chunk);
            break;
          }
          DealNext(s, peers, before, at, used, left, chunk);
          i := 0;
        } else {
          i := i + 1;
        }
        availI := s[i].size;
      }
      availPeer := availPeer - chunk;
      if availPeer == 0 {
        if j + 1 == peers {
          DealLast(s, peers, before, at, used, left, chunk);
          break;
        }
        DealNext(s, peers, before, at, used, left, chunk);
        shares := shares + [[]];
        availPeer := per;
      } else {
        DealOn(s, peers, before, at, used, left, chunk);
      }
    }
  }
}
