/** Products and quotients of reals as named functions, with the laws the proofs use: a proof that hides them reasons by
    these laws only. */
module Reals {

  function Times(a: real, b: real): real { a * b }

  function Over(a: real, b: real): real
    requires b != 0.0
  {
    a / b
  }

  lemma OverTimes(a: real, b: real)
    requires b != 0.0
    ensures Times(Over(a, b), b) == a
  {
  }

  lemma TimesComm(a: real, b: real)
    ensures Times(a, b) == Times(b, a)
  {
  }

  lemma TimesAssoc(a: real, b: real, c: real)
    ensures Times(Times(a, b), c) == Times(a, Times(b, c))
  {
  }

  lemma TimesAdd(a: real, b: real, c: real)
    ensures Times(a + b, c) == Times(a, c) + Times(b, c)
  {
  }

  lemma TimesUnit(a: real)
    ensures Times(1.0, a) == a && Times(0.0, a) == 0.0
  {
  }

  lemma TimesLess(a: real, b: real, c: real)
    requires a < b && 0.0 < c
    ensures Times(a, c) < Times(b, c)
  {
  }

  lemma TimesAtMost(a: real, b: real, c: real)
    requires a <= b && 0.0 <= c
    ensures Times(a, c) <= Times(b, c)
  {
  }

  lemma TimesPos(a: real, b: real)
    requires 0.0 <= a && 0.0 <= b
    ensures 0.0 <= Times(a, b)
    ensures 0.0 < a && 0.0 < b ==> 0.0 < Times(a, b)
  {
  }

  /** Dividing out a positive factor. */
  lemma TimesCancel(a: real, b: real, c: real)
    requires 0.0 < c
    ensures Times(a, c) < Times(b, c) ==> a < b
    ensures Times(a, c) <= Times(b, c) ==> a <= b
    ensures Times(a, c) == Times(b, c) ==> a == b
  {
    hide Times;
    if a < b { TimesLess(a, b, c); } else if b < a { TimesLess(b, a, c); }
  }

  lemma TimesSub(a: real, b: real, c: real)
    ensures Times(a - b, c) == Times(a, c) - Times(b, c)
  {
    hide Times;
    TimesAdd(a - b, b, c);
  }

  lemma OverPart(a: real, b: real)
    requires 0.0 <= a < b
    ensures 0.0 <= Over(a, b) < 1.0
  {
    hide Times, Over;
    OverTimes(a, b);
    TimesUnit(b);
    TimesCancel(0.0, Over(a, b), b);
    TimesCancel(Over(a, b), 1.0, b);
  }

  /** A proper part of something. */
  lemma TimesPart(s: real, x: real)
    requires 0.0 <= s < 1.0 && 0.0 <= x
    ensures 0.0 <= Times(s, x) <= x
  {
    hide Times;
    TimesPos(s, x);
    TimesAtMost(s, 1.0, x);
    TimesUnit(x);
  }

  lemma {:induction false} TimesNat(a: nat, b: nat)
    ensures (a * b) as real == Times(a as real, b as real)
    ensures a > 0 && b > 0 ==> a * b > 0
  {
    hide Times;
    TimesUnit(b as real);
    if a > 0 {
      TimesNat(a - 1, b);
      TimesAdd((a - 1) as real, 1.0, b as real);
      assert a * b == (a - 1) * b + b;
    }
  }
}
