/** The few facts about products, quotients and remainders the codecs rest on. */
module Arithmetic {

  lemma MulMono(a: nat, b: nat, p: nat)
    requires a <= b
    ensures a * p <= b * p
  {
  }

  /** Quotient and remainder are unique. */
  lemma DivUnique(q: nat, p: nat, r: nat)
    requires r < p
    ensures (r + q * p) / p == q && (r + q * p) % p == r
  {
    var x := r + q * p;
    var q' := x / p;
    if q' > q { MulMono(q + 1, q', p); }
    if q > q' { MulMono(q' + 1, q, p); }
    assert (q' + 1) * p == q' * p + p && (q + 1) * p == q * p + p;
    assert x == q' * p + x % p;
  }

  /** A top digit below its radix on top of a part below the place value. */
  lemma TopDigit(low: nat, p: nat, digit: nat, radix: nat)
    requires low < p && digit < radix
    ensures low + digit * p < radix * p
    ensures (low + digit * p) / p == digit && (low + digit * p) % p == low
  {
    DivUnique(digit, p, low);
    MulMono(digit + 1, radix, p);
  }

  lemma SplitTop(base: nat, p: nat, radix: nat)
    requires p > 0 && base < radix * p
    ensures base / p < radix && base % p < p && base % p + base / p * p == base
  {
    if base / p >= radix { MulMono(radix, base / p, p); }
  }

  lemma MulAssoc(a: nat, b: nat, c: nat)
    ensures a * b * c == a * (b * c)
  {
  }

  lemma MulLess(a: nat, b: nat, p: nat)
    requires a < b && p > 0
    ensures a * p < b * p
  {
  }

  lemma MulCancel(a: nat, b: nat, p: nat)
    requires a * p < b * p
    ensures a < b
  {
  }

  /** A quotient is the number of the cell the dividend lies in. */
  lemma DivCell(x: nat, p: nat, q: nat)
    requires p > 0
    ensures q == x / p <==> q * p <= x < (q + 1) * p
  {
    var d := x / p;
    assert x == d * p + x % p && (d + 1) * p == d * p + p;
    if q * p <= x < (q + 1) * p {
      MulCancel(q, d + 1, p);
      MulCancel(d, q + 1, p);
    }
  }

  lemma MulSwap(a: nat, b: nat)
    ensures a * b == b * a
  {
  }

  lemma MulAdd(a: nat, b: nat, p: nat)
    ensures (a + b) * p == a * p + b * p
  {
  }

  /** Dividing twice is dividing by the product. */
  lemma DivTwice(x: nat, a: nat, b: nat)
    requires a > 0 && b > 0
    ensures a * b > 0 && x / a / b == x / (a * b)
  {
    MulMono(1, a, b);
    var y := x / a;
    var q := y / b;
    DivCell(x, a, y);
    DivCell(y, b, q);
    MulMono(q * b, y, a);
    MulMono(y + 1, (q + 1) * b, a);
    MulAssoc(q, b, a);
    MulAssoc(q + 1, b, a);
    MulSwap(b, a);
    DivCell(x, a * b, q);
  }

  lemma DivMono(x: nat, x': nat, p: nat)
    requires x <= x' && p > 0
    ensures x / p <= x' / p
  {
    assert x / p * p <= x && x' < (x' / p + 1) * p;
    MulCancel(x / p, x' / p + 1, p);
  }

  lemma DivStep(x: nat, x': nat, p: nat)
    requires x + p <= x' && p > 0
    ensures x / p < x' / p
  {
    assert x / p * p <= x && x' < (x' / p + 1) * p;
    assert (x / p + 1) * p == x / p * p + p;
    MulCancel(x / p + 1, x' / p + 1, p);
  }
}
