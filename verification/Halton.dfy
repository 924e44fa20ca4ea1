/** In-place generation of a Halton column: the radical inverses of 0, 1, 2, ... in growing segments, over exact reals. */
module Halton {
  import opened Arithmetic
  import opened Reals

  function Pow(p: nat, i: nat): (r: nat)
    requires p > 0
    ensures r > 0
  {
    if i == 0 then 1 else Pow(p, i - 1) * p
  }

  function Digit(n: nat, p: nat): (d: nat)
    requires p > 1
    ensures d < p
  {
    n % p
  }

  function Rest(n: nat, p: nat): nat
    requires p > 1
  {
    n / p
  }

  /** The digits of `n` in base `p`, mirrored at the point. */
  function Radical(n: nat, p: nat): real
    requires p > 1
    decreases n
  {
    if n == 0 then 0.0
    else
      Smaller(n, p);
      Over(Digit(n, p) as real + Radical(Rest(n, p), p), p as real)
  }

  lemma Smaller(n: nat, p: nat)
    requires n > 0 && p > 1
    ensures Rest(n, p) < n
  {
    var q := n / p;
    assert q * p <= n;
    if q >= n {
      MulMono(n, q, p);
      MulMono(2, p, n);
    }
  }

  /** Every entry lies in [0, 1). */
  lemma {:induction false} RadicalBelowOne(n: nat, p: nat)
    requires p > 1
    ensures 0.0 <= Radical(n, p) < 1.0
    decreases n
  {
    hide Digit, Rest;
    if n > 0 {
      Smaller(n, p);
      RadicalBelowOne(Rest(n, p), p);
      UnitPart(Digit(n, p), Radical(Rest(n, p), p), p);
    }
  }

  lemma UnitPart(d: nat, f: real, p: nat)
    requires d < p && 0.0 <= f < 1.0
    ensures 0.0 <= Over(d as real + f, p as real) < 1.0
  {
    hide Over;
    OverPart(d as real + f, p as real);
  }

  lemma SamePart(d: nat, f: real, e: nat, g: real)
    requires 0.0 <= f < 1.0 && 0.0 <= g < 1.0 && d as real + f == e as real + g
    ensures d == e && f == g
  {
  }

  /** No entry comes twice. */
  lemma {:induction false} RadicalInjective(m: nat, n: nat, p: nat)
    requires p > 1 && Radical(m, p) == Radical(n, p)
    ensures m == n
    decreases m + n
  {
    hide Radical, Digit, Rest;
    RadicalStep(m, p);
    RadicalStep(n, p);
    RadicalBelowOne(Rest(m, p), p);
    RadicalBelowOne(Rest(n, p), p);
    SamePart(Digit(m, p), Radical(Rest(m, p), p), Digit(n, p), Radical(Rest(n, p), p));
    if m > 0 || n > 0 {
      if m > 0 { Smaller(m, p); } else { ZeroRest(p); }
      if n > 0 { Smaller(n, p); } else { ZeroRest(p); }
      RadicalInjective(Rest(m, p), Rest(n, p), p);
      Whole(m, p);
      Whole(n, p);
    }
  }

  lemma ZeroRest(p: nat)
    requires p > 1
    ensures Rest(0, p) == 0 && Digit(0, p) == 0
  {
  }

  lemma Whole(n: nat, p: nat)
    requires p > 1
    ensures n == Rest(n, p) * p + Digit(n, p)
  {
  }

  /** The first digit and the rest. */
  lemma RadicalStep(n: nat, p: nat)
    requires p > 1
    ensures Times(Radical(n, p), p as real) == Digit(n, p) as real + Radical(Rest(n, p), p)
  {
    hide Digit, Rest, Times, Over;
    if n > 0 {
      OverTimes(Digit(n, p) as real + Radical(Rest(n, p), p), p as real);
    } else {
      ZeroRest(p);
      TimesUnit(p as real);
    }
  }

  /** A digit in front of the top: what the inner loop adds. */
  lemma {:induction false} RadicalTop(k: nat, i: nat, j: nat, p: nat)
    requires p > 1 && i >= 1 && j < p && k < Pow(p, i - 1)
    ensures Radical(j * Pow(p, i - 1) + k, p) == Radical(k, p) + Over(j as real, Pow(p, i) as real)
    decreases i
  {
    hide Radical, Pow, Digit, Rest, Over, Times;
    PowStep(p, i);
    RadicalZero(p);
    if i == 1 {
      TopAlone(j, p);
    } else {
      var q := Pow(p, i - 2);
      PowStep(p, i - 1);
      Shift(j, q, k, p);
      Below(k, q, p);
      RadicalTop(Rest(k, p), i - 1, j, p);
      TimesNat(Pow(p, i - 1), p);
      TopStep(j * Pow(p, i - 1) + k, k, j, p, Pow(p, i - 1), Pow(p, i));
    }
  }

  lemma Below(k: nat, q: nat, p: nat)
    requires p > 1 && k < q * p
    ensures Rest(k, p) < q
  {
    if k / p >= q { MulMono(q, k / p, p); }
  }

  lemma TopAlone(j: nat, p: nat)
    requires p > 1 && j < p
    ensures Radical(j, p) == 0.0 + Over(j as real, p as real)
  {
    hide Over;
    DivUnique(0, p, j);
    OverZero(p as real);
  }

  lemma OverZero(b: real)
    requires b != 0.0
    ensures Over(0.0, b) == 0.0
  {
  }

  lemma TopStep(x: nat, k: nat, j: nat, p: nat, w: nat, wide: nat)
    requires p > 1 && w > 0 && Digit(x, p) == Digit(k, p) && wide > 0 && wide as real == Times(w as real, p as real)
    requires Radical(Rest(x, p), p) == Radical(Rest(k, p), p) + Over(j as real, w as real)
    ensures Radical(x, p) == Radical(k, p) + Over(j as real, wide as real)
  {
    hide Radical, Digit, Rest, Times, Over;
    RadicalStep(x, p);
    RadicalStep(k, p);
    Carry(Radical(x, p), Radical(k, p), j as real, w as real, p as real, wide as real);
  }

  lemma Carry(x: real, k: real, j: real, w: real, p: real, wide: real)
    requires p > 0.0 && w > 0.0 && wide > 0.0 && wide == Times(w, p)
    requires Times(x, p) == Times(k, p) + Over(j, w)
    ensures x == k + Over(j, wide)
  {
    hide Times, Over;
    var t := Over(j, wide);
    OverTimes(j, wide);
    OverTimes(j, w);
    TimesComm(w, p);
    TimesAssoc(t, p, w);
    TimesCancel(Times(t, p), Over(j, w), w);
    TimesAdd(k, t, p);
    TimesCancel(x, k + t, p);
  }

  lemma Shift(j: nat, q: nat, k: nat, p: nat)
    requires p > 1
    ensures Rest(j * (q * p) + k, p) == j * q + Rest(k, p) && Digit(j * (q * p) + k, p) == Digit(k, p)
  {
    MulAssoc(j, q, p);
    assert j * (q * p) + k == k % p + (j * q + k / p) * p;
    DivUnique(j * q + k / p, p, k % p);
  }

  /** `sequence`: whole segments are copied behind what is there already, each shifted by one more digit; the last one is
      cut off where the array ends. */
  method Sequence(vector: array<real>, prime: nat)
    requires prime > 1 && vector.Length > 1 && vector[0] == 0.0
    modifies vector
    ensures forall n :: 0 <= n < vector.Length ==> vector[n] == Radical(n, prime)
  {
    hide Radical, Pow, Over;
    RadicalZero(prime);
    var i: nat, segment: nat := 1, 1;
    while true
      invariant i >= 1 && 1 <= segment < vector.Length && segment == Pow(prime, i - 1)
      invariant forall n :: 0 <= n < segment ==> vector[n] == Radical(n, prime)
      decreases vector.Length - segment
    {
      var cached := segment;
      var j: nat := 1;
      PowStep(prime, i);
      while j != prime
        invariant 1 <= j <= prime && segment == j * cached && cached <= segment < vector.Length
        invariant forall n :: 0 <= n < segment ==> vector[n] == Radical(n, prime)
        decreases prime - j
      {
        var growth := if vector.Length - segment < cached then vector.Length - segment else cached;
        var tmp := Over(j as real, Pow(prime, i) as real);
        for k := 0 to growth
          invariant forall n :: 0 <= n < segment + k ==> vector[n] == Radical(n, prime)
        {
          RadicalTop(k, i, j, prime);
          vector[segment + k] := vector[k] + tmp;
        }
        segment := segment + growth;
        if segment == vector.Length {
          return;
        }
        j := j + 1;
      }
      i := i + 1;
    }
  }

  lemma RadicalZero(p: nat)
    requires p > 1
    ensures Radical(0, p) == 0.0 && Pow(p, 0) == 1
  {
  }

  lemma PowStep(p: nat, i: nat)
    requires p > 0 && i >= 1
    ensures Pow(p, i) == Pow(p, i - 1) * p == p * Pow(p, i - 1)
  {
  }
}
