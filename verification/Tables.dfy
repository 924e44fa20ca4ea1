/** Two tables over the same resolutions, as the server and a peer build them: for how many coefficients at once each builds,
    and what lies past the ends of the lists, makes no difference to a complexity of the smaller one. */
module Tables {
  import opened Combos
  import opened Positions

  /** Every list of `b` starts with that of `a`. */
  ghost predicate Longer(a: Grid, b: Grid) {
    |a| == |b| && forall c :: 0 <= c < |a| ==> a[c] <= b[c]
  }

  lemma LongerOk(a: Grid, b: Grid, l: nat)
    requires Longer(a, b) && GridOk(a, l)
    ensures GridOk(b, l)
  {
  }

  lemma GridLess(grid: Grid, l: nat, m: nat)
    requires l <= m && GridOk(grid, m)
    ensures GridOk(grid, l)
  {
  }

  // ----- The same levels -----

  lemma SameRadices(a: Grid, b: Grid, l: nat, s: seq<nat>)
    requires Longer(a, b) && SubOk(a, l, s)
    ensures SubOk(b, l, s) && Radices(b, l, s) == Radices(a, l, s)
  {
    forall i | 0 <= i < |s| ensures l < |b[s[i]]| && b[s[i]][l] == a[s[i]][l] {
      assert a[s[i]] <= b[s[i]];
    }
  }

  lemma {:induction false} SameLay(a: Grid, b: Grid, l: nat, subs: seq<seq<nat>>, key: nat)
    requires Longer(a, b) && SubsOk(a, l, subs)
    ensures SubsOk(b, l, subs)
    ensures LaySize(b, l, subs) == LaySize(a, l, subs) && Lay(b, l, subs, key) == Lay(a, l, subs, key)
    decreases |subs|
  {
    forall i | 0 <= i < |subs| ensures SubOk(b, l, subs[i]) {
      SameRadices(a, b, l, subs[i]);
    }
    if subs != [] {
      LayHead(a, l, subs, key);
      LayHead(b, l, subs, key);
      SameRadices(a, b, l, subs[0]);
      SameLay(a, b, l, subs[1..], key + Product(Radices(a, l, subs[0])));
    }
  }

  lemma SameRes(a: Grid, b: Grid, l: nat)
    requires Longer(a, b) && GridOk(a, l + 1) && GridOk(b, l + 1)
    ensures LevelRes(b, l) == LevelRes(a, l)
  {
    forall c | 0 <= c < |a| ensures b[c][l] == a[c][l] {
      assert a[c] <= b[c];
    }
  }

  /** A level with its place in the table. */
  lemma LevelStep(grid: Grid, l: nat)
    requires GridOk(grid, l + 1)
    ensures GridOk(grid, l) && SubsOk(grid, l, Subsets(0, l + 1, |grid|))
    ensures End(grid, l + 1) == End(grid, l) + LaySize(grid, l, Subsets(0, l + 1, |grid|))
    ensures Table(grid, l + 1) == Table(grid, l) + Lay(grid, l, Subsets(0, l + 1, |grid|), End(grid, l))
    ensures Metadata(grid, l + 1) == Metadata(grid, l) + [Level(End(grid, l + 1), LevelRes(grid, l))]
  {
    LevelSubsOk(grid, l);
  }

  lemma TableStart(grid: Grid)
    ensures GridOk(grid, 0) && End(grid, 0) == 0 && Table(grid, 0) == [] && Metadata(grid, 0) == []
  {
  }

  lemma {:induction false} SameTable(a: Grid, b: Grid, levels: nat)
    requires Longer(a, b) && GridOk(a, levels)
    ensures GridOk(b, levels) && End(b, levels) == End(a, levels)
    ensures Table(b, levels) == Table(a, levels) && Metadata(b, levels) == Metadata(a, levels)
  {
    hide End, Table, Metadata, Subsets, SubsOk, Lay, LaySize, LevelRes;
    LongerOk(a, b, levels);
    TableStart(a);
    TableStart(b);
    if levels > 0 {
      var l := levels - 1;
      SameTable(a, b, l);
      LevelStep(a, l);
      LevelStep(b, l);
      SameLay(a, b, l, Subsets(0, levels, |a|), End(a, l));
      SameRes(a, b, l);
    }
  }

  // ----- The same decoding -----

  lemma {:induction false} SameInterval(a: Grid, b: Grid, l: nat, subs: seq<seq<nat>>, x: nat)
    requires Longer(a, b) && SubsOk(a, l, subs) && x < LaySize(a, l, subs)
    ensures SubsOk(b, l, subs) && x < LaySize(b, l, subs)
    ensures LayIndex(b, l, subs, x) == LayIndex(a, l, subs, x) && LayBase(b, l, subs, x) == LayBase(a, l, subs, x)
    decreases |subs|
  {
    SameLay(a, b, l, subs, 0);
    SameRadices(a, b, l, subs[0]);
    LayHead(a, l, subs, 0);
    if x >= Product(Radices(a, l, subs[0])) {
      SameInterval(a, b, l, subs[1..], x - Product(Radices(a, l, subs[0])));
    }
  }

  lemma SameSpot(a: Grid, b: Grid, l: nat, x: nat)
    requires Longer(a, b) && GridOk(a, l + 1) && x < LevelSize(a, l)
    ensures GridOk(b, l + 1) && x < LevelSize(b, l) && Spot(b, l, x) == Spot(a, l, x)
  {
    LongerOk(a, b, l + 1);
    hide Subsets, SubsOk, LaySize, LayIndex, LayBase, Digits, Radices, Product, SubOk;
    var subs := Subsets(0, l + 1, |a|);
    LevelSubsOk(a, l);
    SameInterval(a, b, l, subs, x);
    LaySplit(a, l, subs, x);
    SameRadices(a, b, l, subs[LayIndex(a, l, subs, x)]);
  }

  lemma SameLevelAt(a: Grid, levels: nat, b: Grid, more: nat, c: nat)
    requires Longer(a, b) && levels <= more && GridOk(a, levels) && GridOk(b, more) && c < End(a, levels)
    ensures c < End(b, more) && LevelAt(b, more, c) == LevelAt(a, levels, c)
    ensures var l := LevelAt(a, levels, c); End(b, l) == End(a, l)
  {
    hide End, LevelAt, GridOk, Longer, LevelSize;
    var l := LevelAt(a, levels, c);
    SameEnd(a, b, levels, levels);
    SameEnd(a, b, l, levels);
    SameEnd(a, b, l + 1, levels);
    EndMono(b, levels, more);
    LevelUnique(b, more, c, l);
  }

  lemma SameEnd(a: Grid, b: Grid, l: nat, levels: nat)
    requires Longer(a, b) && l <= levels && GridOk(a, levels)
    ensures GridOk(a, l) && GridOk(b, l) && End(b, l) == End(a, l)
  {
    SameTable(a, b, l);
  }

  /** A complexity of the smaller table stands for the same subset and digits in the larger one. */
  lemma SameDecode(a: Grid, levels: nat, b: Grid, more: nat, c: nat)
    requires Longer(a, b) && levels <= more && GridOk(a, levels) && GridOk(b, more) && c < End(a, levels)
    ensures c < End(b, more) && Decode(b, more, c) == Decode(a, levels, c)
  {
    hide End, LevelSize, Spot, LevelAt, GridOk, Longer, MoveOk, Encode;
    SameLevelAt(a, levels, b, more, c);
    var l := LevelAt(a, levels, c);
    GridLess(a, l, levels);
    GridLess(a, l + 1, levels);
    EndStep(a, l);
    SameSpot(a, b, l, c - End(a, l));
  }

  /** So it stands for the same place. */
  lemma SamePosition(a: Grid, levels: nat, b: Grid, more: nat, ended: seq<bool>, centre: seq<nat>, c: nat)
    requires Longer(a, b) && levels <= more && GridOk(a, levels) && GridOk(b, more) && c < End(a, levels)
    requires |ended| == |centre| == |a|
    ensures c < End(b, more) && Position(b, more, ended, centre, c) == Position(a, levels, ended, centre, c)
  {
    hide Decode, MoveOk;
    SameDecode(a, levels, b, more, c);
    var m := Decode(a, levels, c);
    LevelBelow(a, levels, c);
    forall j | 0 <= j < |a| ensures TargetAt(b, m, ended, centre, j) == TargetAt(a, m, ended, centre, j) {
      assert a[j] <= b[j] && m.level < |a[j]|;
    }
  }

  lemma LevelBelow(grid: Grid, levels: nat, c: nat)
    requires GridOk(grid, levels) && c < End(grid, levels)
    ensures var m := Decode(grid, levels, c); m.level < levels && |m.digits| == |m.coeffs| && GridOk(grid, m.level + 1)
  {
  }

  // ----- The same build -----

  lemma {:induction false} SameEnding(a: Grid, b: Grid, l: nat, subs: seq<seq<nat>>, key: nat, limit: nat)
    requires Longer(a, b) && !LayEnding(a, l, subs, key, limit).Past?
    ensures LayEnding(b, l, subs, key, limit) == LayEnding(a, l, subs, key, limit)
    decreases |subs|
  {
    if subs != [] {
      SameRadices(a, b, l, subs[0]);
      var next := key + Product(Radices(a, l, subs[0]));
      if next <= limit {
        SameEnding(a, b, l, subs[1..], next, limit);
      }
    }
  }

  lemma BuiltStep(grid: Grid, limit: nat, n: nat, l: nat)
    requires l < n <= |grid| && GridOk(grid, l)
    ensures LevelEnding(grid, l, limit).TooBig? ==> Built(grid, limit, n, l) == (l, false)
    ensures LevelEnding(grid, l, limit).Past? ==> Built(grid, limit, n, l) == (l, true)
    ensures LevelEnding(grid, l, limit).Complete? ==>
              GridOk(grid, l + 1) && Built(grid, limit, n, l) == Built(grid, limit, n, l + 1)
  {
    hide LevelEnding;
    if LevelEnding(grid, l, limit).Complete? {
      LevelReached(grid, l, limit);
    }
  }

  lemma SameLevelEnding(a: Grid, b: Grid, l: nat, limit: nat)
    requires Longer(a, b) && GridOk(a, l) && !LevelEnding(a, l, limit).Past?
    ensures GridOk(b, l) && LevelEnding(b, l, limit) == LevelEnding(a, l, limit)
  {
    hide End, Subsets, LayEnding;
    SameTable(a, b, l);
    SameEnding(a, b, l, Subsets(0, l + 1, |a|), End(a, l), limit);
  }

  /** A build that never reads past a list depends on nothing that lies there. One that does still agrees with the build
      over any longer lists on the levels it completes. */
  lemma {:induction false} SameBuilt(a: Grid, b: Grid, limit: nat, n: nat, l: nat)
    requires Longer(a, b) && l <= n <= |a| && GridOk(a, l)
    ensures GridOk(b, l) && Built(a, limit, n, l).0 <= Built(b, limit, n, l).0
    ensures !Built(a, limit, n, l).1 ==> Built(b, limit, n, l) == Built(a, limit, n, l)
    decreases n - l
  {
    hide Built, LevelEnding;
    LongerOk(a, b, l);
    if l == n {
      BuiltStart(a, limit, n);
      BuiltStart(b, limit, n);
    } else {
      BuiltStep(a, limit, n, l);
      BuiltStep(b, limit, n, l);
      if !LevelEnding(a, l, limit).Past? {
        SameLevelEnding(a, b, l, limit);
        if LevelEnding(a, l, limit).Complete? {
          SameBuilt(a, b, limit, n, l + 1);
        }
      }
    }
  }

  /** Building for more coefficients at once goes on where the other build ends, if that was complete. */
  lemma {:induction false} BuiltOn(grid: Grid, limit: nat, m: nat, n: nat, l: nat)
    requires l <= m <= n <= |grid| && GridOk(grid, l)
    ensures
      var r := Built(grid, limit, m, l);
      Built(grid, limit, n, l) == if r.0 < m then r else Built(grid, limit, n, m)
    decreases m - l
  {
    hide LevelEnding, GridOk;
    if l < m {
      BuiltStep(grid, limit, m, l);
      BuiltStep(grid, limit, n, l);
      hide Built;
      if LevelEnding(grid, l, limit).Complete? {
        BuiltOn(grid, limit, m, n, l + 1);
      }
    }
  }

  lemma BuiltMore(a: Grid, b: Grid, limit: nat, m: nat, n: nat)
    requires Longer(a, b) && m <= n <= |a|
    ensures Built(a, limit, m, 0).0 <= Built(b, limit, n, 0).0
  {
    BuiltOn(a, limit, m, n, 0);
    SameBuilt(a, b, limit, n, 0);
  }

  /** When the build for `n` coefficients at once has exactly the levels of that for `m` of them: when already the latter
      stopped short, or there is no further level to try, or that does not fit, or its first list is too short. */
  lemma CoincideIff(grid: Grid, limit: nat, m: nat, n: nat)
    requires m <= n <= |grid| && GridOk(grid, m)
    ensures
      var few, many := Built(grid, limit, m, 0).0, Built(grid, limit, n, 0).0;
      many == few <==> few < m || m == n || !LevelEnding(grid, m, limit).Complete?
  {
    BuiltOn(grid, limit, m, n, 0);
    if m < n && LevelEnding(grid, m, limit).Complete? {
      LevelReached(grid, m, limit);
    }
  }

  // ----- When a build reads past a list -----

  /** The build comes to subset `i` of level `l`, everything before it fits, and a list of this subset is too short. */
  ghost predicate ComesPast(grid: Grid, limit: nat, l: nat, i: nat) {
    && GridOk(grid, l) && End(grid, l) <= limit
    && var subs := Subsets(0, l + 1, |grid|);
    && i < |subs| && SubsOk(grid, l, subs[..i]) && End(grid, l) + LaySize(grid, l, subs[..i]) <= limit
    && !SubOk(grid, l, subs[i])
  }

  lemma {:induction false} PastAt(grid: Grid, l: nat, subs: seq<seq<nat>>, key: nat, limit: nat) returns (i: nat)
    requires LayEnding(grid, l, subs, key, limit).Past? && key <= limit
    ensures i < |subs| && SubsOk(grid, l, subs[..i]) && key + LaySize(grid, l, subs[..i]) <= limit && !SubOk(grid, l, subs[i])
    decreases |subs|
  {
    if !SubOk(grid, l, subs[0]) {
      i := 0;
      LayNone(grid, l, key);
      assert subs[..0] == [];
    } else {
      var next := key + Product(Radices(grid, l, subs[0]));
      var j := PastAt(grid, l, subs[1..], next, limit);
      i := j + 1;
      assert subs[..i] == [subs[0]] + subs[1..][..j];
      assert SubsOk(grid, l, [subs[0]]);
      SubsOkConcat(grid, l, [subs[0]], subs[1..][..j]);
      LayHead(grid, l, subs[..i], key);
      assert subs[..i][1..] == subs[1..][..j];
    }
  }

  lemma PastFrom(grid: Grid, l: nat, subs: seq<seq<nat>>, key: nat, limit: nat, i: nat)
    requires i < |subs| && SubsOk(grid, l, subs[..i]) && key + LaySize(grid, l, subs[..i]) <= limit
    requires !SubOk(grid, l, subs[i])
    ensures LayEnding(grid, l, subs, key, limit).Past?
  {
    LayCompleteIff(grid, l, subs[..i], key, limit);
    LayEndingConcat(grid, l, subs[..i], subs[i..], key, limit);
    assert subs == subs[..i] + subs[i..];
  }

  lemma {:induction false} BuiltReaches(grid: Grid, limit: nat, n: nat, l: nat, m: nat)
    requires m <= l <= n <= |grid| && GridOk(grid, l) && End(grid, l) <= limit
    ensures GridOk(grid, m) && Built(grid, limit, n, m) == Built(grid, limit, n, l)
    decreases l - m
  {
    hide End, LevelEnding, Built;
    if m < l {
      EndMono(grid, m, l);
      EndMono(grid, m + 1, l);
      LevelCompleteIff(grid, m, limit);
      BuiltStep(grid, limit, n, m);
      BuiltReaches(grid, limit, n, l, m + 1);
    }
  }

  lemma LevelFits(grid: Grid, l: nat, limit: nat)
    requires l < |grid| && GridOk(grid, l) && End(grid, l) <= limit && LevelEnding(grid, l, limit).Complete?
    ensures GridOk(grid, l + 1) && End(grid, l + 1) <= limit
  {
    LevelReached(grid, l, limit);
    hide End, LevelEnding;
    LevelCompleteIff(grid, l, limit);
  }

  lemma PastLevel(grid: Grid, limit: nat, l: nat) returns (i: nat)
    requires GridOk(grid, l) && End(grid, l) <= limit && LevelEnding(grid, l, limit).Past?
    ensures ComesPast(grid, limit, l, i)
  {
    hide End, Subsets, LayEnding, LaySize, SubsOk;
    i := PastAt(grid, l, Subsets(0, l + 1, |grid|), End(grid, l), limit);
  }

  lemma {:induction false} BuiltPast(grid: Grid, limit: nat, n: nat, l: nat) returns (i: nat)
    requires l <= n <= |grid| && GridOk(grid, l) && End(grid, l) <= limit && Built(grid, limit, n, l).1
    ensures ComesPast(grid, limit, Built(grid, limit, n, l).0, i)
    decreases n - l
  {
    hide End, Built, LevelEnding, ComesPast;
    if l == n {
      BuiltStart(grid, limit, n);
    } else {
      BuiltStep(grid, limit, n, l);
      if LevelEnding(grid, l, limit).Past? {
        i := PastLevel(grid, limit, l);
      } else {
        LevelFits(grid, l, limit);
        i := BuiltPast(grid, limit, n, l + 1);
      }
    }
  }

  lemma BuiltStart(grid: Grid, limit: nat, n: nat)
    ensures n <= |grid| && GridOk(grid, n) ==> Built(grid, limit, n, n) == (n, false)
  {
  }

  /** Exactly when a build reads past the end of a list of resolutions. */
  lemma PastIff(grid: Grid, limit: nat, n: nat)
    requires n <= |grid|
    ensures Built(grid, limit, n, 0).1 <==> exists l, i :: 0 <= l < n && 0 <= i && ComesPast(grid, limit, l, i)
  {
    EndStart(grid);
    if Built(grid, limit, n, 0).1 {
      var i := BuiltPast(grid, limit, n, 0);
    }
    forall l, i | 0 <= l < n && 0 <= i && ComesPast(grid, limit, l, i) ensures Built(grid, limit, n, 0).1 {
      BuiltReaches(grid, limit, n, l, 0);
      PastFrom(grid, l, Subsets(0, l + 1, |grid|), End(grid, l), limit, i);
    }
  }

  lemma EndStart(grid: Grid)
    ensures GridOk(grid, 0) && End(grid, 0) == 0
  {
  }
}
