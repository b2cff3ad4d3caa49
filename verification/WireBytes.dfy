/** Integers as bytes, the way Python's `struct`, `to_bytes` and `|` write them. */
module WireBytes {
  import Utf8

  type Byte = Utf8.Byte

  function Pow256(w: nat): (p: nat)
    ensures p > 0
  {
    if w == 0 then 1 else 256 * Pow256(w - 1)
  }

  /** The low `w` bytes of `n`, most significant first. */
  function BigEndian(n: nat, w: nat): (s: seq<Byte>)
    ensures |s| == w
    decreases w
  {
    if w == 0 then [] else BigEndian(n / 256, w - 1) + [n % 256]
  }

  function FromBig(s: seq<Byte>): nat {
    if s == [] then 0 else FromBig(s[..|s| - 1]) * 256 + s[|s| - 1] as int
  }

  lemma {:induction false} BigRoundTrip(n: nat, w: nat)
    requires n < Pow256(w)
    ensures FromBig(BigEndian(n, w)) == n
    decreases w
  {
    if w > 0 {
      BigRoundTrip(n / 256, w - 1);
      assert BigEndian(n, w)[..w - 1] == BigEndian(n / 256, w - 1);
    }
  }

  /** The low `w` bytes of `n`, least significant first. */
  function LittleEndian(n: nat, w: nat): (s: seq<Byte>)
    ensures |s| == w
    decreases w
  {
    if w == 0 then [] else [n % 256] + LittleEndian(n / 256, w - 1)
  }

  function FromLittle(s: seq<Byte>): nat {
    if s == [] then 0 else s[0] as int + 256 * FromLittle(s[1..])
  }

  lemma {:induction false} LittleRoundTrip(n: nat, w: nat)
    requires n < Pow256(w)
    ensures FromLittle(LittleEndian(n, w)) == n
    decreases w
  {
    if w > 0 {
      LittleRoundTrip(n / 256, w - 1);
      assert LittleEndian(n, w)[1..] == LittleEndian(n / 256, w - 1);
    }
  }

  function Zeros(n: nat): (s: seq<Byte>)
    ensures |s| == n && forall i :: 0 <= i < n ==> s[i] == 0
  {
    if n == 0 then [] else Zeros(n - 1) + [0]
  }

  /** Bitwise or. */
  function Or(a: nat, b: nat): nat
    decreases a + b
  {
    if a == 0 then b
    else if b == 0 then a
    else 2 * Or(a / 2, b / 2) + (if a % 2 == 1 || b % 2 == 1 then 1 else 0)
  }

  /** A tag in the high bits and a small count in the low four. */
  lemma {:induction false} OrShift(h: nat, b: nat, k: nat, p: nat)
    requires b < p && p == Pow2(k)
    ensures Or(h * p, b) == h * p + b
    decreases k
  {
    if b > 0 && h > 0 {
      assert k > 0;
      var q := Pow2(k - 1);
      assert h * p / 2 == h * q && h * p % 2 == 0 by {
        assert h * p == 2 * (h * q);
      }
      OrShift(h, b / 2, k - 1, q);
      assert h * p > 0;
    }
  }

  function Pow2(k: nat): (p: nat)
    ensures p > 0
  {
    if k == 0 then 1 else 2 * Pow2(k - 1)
  }

  lemma OrNibble(h: nat, b: nat)
    requires b < 16
    ensures Or(h * 16, b) == h * 16 + b
  {
    assert Pow2(4) == 16;
    OrShift(h, b, 4, 16);
  }

  lemma OrSeven(b: nat)
    requires b < 128
    ensures Or(128, b) == 128 + b
  {
    assert Pow2(7) == 128;
    OrShift(1, b, 7, 128);
  }
}
