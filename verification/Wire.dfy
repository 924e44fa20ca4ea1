/** Numbers on the wire: little-endian bytes of a fixed width, and the reading of an unsigned number as a signed one. */
module Wire {
  import opened Arithmetic

  type byte = x: int | 0 <= x < 256

  function Pow256(w: nat): (r: nat)
    ensures r > 0
  {
    if w == 0 then 1 else 256 * Pow256(w - 1)
  }

  /** `to_wire`: the low byte first. */
  function ToBytes(x: nat, w: nat): (b: seq<byte>)
    ensures |b| == w
  {
    if w == 0 then [] else [x % 256] + ToBytes(x / 256, w - 1)
  }

  /** `from_wire`. */
  function FromBytes(b: seq<byte>): nat {
    if b == [] then 0 else b[0] + 256 * FromBytes(b[1..])
  }

  /** The bytes themselves: the one at `k` counts the 256 to the `k`. */
  lemma {:induction false} ByteAt(x: nat, w: nat, k: nat)
    requires k < w
    ensures ToBytes(x, w)[k] == x / Pow256(k) % 256
    decreases w
  {
    if k > 0 {
      ByteAt(x / 256, w - 1, k - 1);
      DivTwice(x, 256, Pow256(k - 1));
    }
  }

  lemma {:induction false} BytesRoundTrip(x: nat, w: nat)
    requires x < Pow256(w)
    ensures FromBytes(ToBytes(x, w)) == x
    decreases w
  {
    if w > 0 {
      BytesRoundTrip(x / 256, w - 1);
      assert ToBytes(x, w)[1..] == ToBytes(x / 256, w - 1);
    }
  }

  lemma {:induction false} BytesBelow(b: seq<byte>)
    ensures FromBytes(b) < Pow256(|b|)
    decreases |b|
  {
    if b != [] { BytesBelow(b[1..]); }
  }

  /** And the other way about: every byte string of the width is the encoding of what it decodes to. */
  lemma {:induction false} NumberRoundTrip(b: seq<byte>)
    ensures ToBytes(FromBytes(b), |b|) == b
    decreases |b|
  {
    if b != [] {
      NumberRoundTrip(b[1..]);
      var x := FromBytes(b);
      assert x % 256 == b[0] && x / 256 == FromBytes(b[1..]);
      assert b == [b[0]] + b[1..];
    }
  }

  /** `deserialise_from_unsigned_to_signed_integral`, for an unsigned type with `half + half` values. */
  function Signed(x: nat, half: nat): int
    requires x < half + half
  {
    if x > half - 1 then -(half + half - 1 - x) - 1 else x
  }

  /** It inverts the conversion of a signed number to the unsigned type, which takes it modulo the number of values. */
  lemma SignedInverts(y: int, half: nat)
    requires 0 - half <= y < half
    ensures y % (half + half) < half + half && Signed(y % (half + half), half) == y
  {
    if y < 0 {
      NegativeModulo(y, half + half);
    } else {
      DivUnique(0, half + half, y);
    }
  }

  lemma NegativeModulo(y: int, n: nat)
    requires n > 0 && 0 - n <= y < 0
    ensures y % n == y + n
  {
    var q, r := y / n, y % n;
    assert y == q * n + r && 0 <= r < n;
    Times(q, n);
  }

  lemma Times(q: int, n: nat)
    ensures q >= 0 ==> q * n >= 0
    ensures q <= -2 ==> q * n <= -2 * n
  {
    if q <= -2 {
      MulMono(2, -q, n);
      assert -q * n == -(q * n);
    } else if q >= 0 {
      MulMono(0, q, n);
    }
  }
}
