/**
 The three BER encoders of fuzz/seed_corpus.py, and the reader of their outermost header in
 fuzz/fuzz_targets/ntlmssp_token.rs. `None` is the exception the source raises.
 */
module Ber {
  import opened Wrappers
  import opened WireBytes

  function BitLength(n: nat): nat {
    if n == 0 then 0 else 1 + BitLength(n / 2)
  }

  /** `ber`: the length in as many octets as it needs. */
  function Ber(tag: Byte, payload: seq<Byte>): Option<seq<Byte>> {
    var n := |payload|;
    if n < 0x80 then Some([tag, n] + payload)
    else
      var ln := BigEndian(n, Width(n));
      var first := Or(0x80, |ln|);
      if first < 256 then Some([tag, first] + ln + payload) else None
  }

  function BerLen(n: nat): Option<seq<Byte>> {
    if n < 0x80 then Some([n])
    else if n < 0x100 then Some([0x81, n])
    else if n < 0x10000 then Some([0x82] + BigEndian(n, 2))
    else if n < 0x1000000 then Some([0x83] + BigEndian(n, 3))
    else None
  }

  /** `tlv`: at most three length octets. */
  function Tlv(tag: Byte, value: seq<Byte>): Option<seq<Byte>> {
    match BerLen(|value|)
    case Some(ln) => Some([tag] + ln + value)
    case None => None
  }

  /** `der`: at most two length octets. */
  function Der(tag: Byte, content: seq<Byte>): Option<seq<Byte>> {
    var n := |content|;
    if n < 0x80 then Some([tag, n] + content)
    else if n <= 0xFF then Some([tag, 0x81, n] + content)
    else if n / 256 < 256 then Some([tag, 0x82, n / 256, n % 256] + content)
    else None
  }

  datatype Header = Header(length: nat, start: nat)

  /** `der_outer`; `None` is its panic. */
  function Outer(b: seq<Byte>): Option<Header> {
    if |b| < 2 then None
    else if b[1] < 0x80 then Some(Header(b[1], 2))
    else if b[1] == 0x81 && |b| > 2 then Some(Header(b[2], 3))
    else if b[1] == 0x82 && |b| > 3 then Some(Header(b[2] as int * 256 + b[3] as int, 4))
    else None
  }

  // ---- the shortest length --------------------------------------------------------------

  lemma {:induction false} FewBits(n: nat, k: nat)
    requires n < Pow2(k)
    ensures BitLength(n) <= k
    decreases k
  {
    if n > 0 {
      FewBits(n / 2, k - 1);
    }
  }

  lemma BitsOfByte(n: nat)
    requires 0 < n < 256
    ensures 1 <= BitLength(n) <= 8
  {
    assert Pow2(4) == 16 && Pow2(8) == 16 * Pow2(4);
    FewBits(n, 8);
  }

  lemma BitsOfMore(n: nat)
    requires n >= 256
    ensures BitLength(n) == 8 + BitLength(n / 256)
  {
    var a := n / 2;
    var b := a / 2;
    var c := b / 2;
    var d := c / 2;
    var e := d / 2;
    var f := e / 2;
    var g := f / 2;
    assert g / 2 == n / 256;
    assert BitLength(n) == 4 + BitLength(d) by {
      assert BitLength(n) == 1 + BitLength(a) && BitLength(b) == 1 + BitLength(c);
    }
    assert BitLength(d) == 4 + BitLength(n / 256) by {
      assert BitLength(d) == 1 + BitLength(e) && BitLength(f) == 1 + BitLength(g);
    }
  }

  /** How many bytes `n` takes. */
  function Width(n: nat): nat {
    (BitLength(n) + 7) / 8
  }

  /** `(bit_length + 7) // 8` is the least number of bytes that holds `n`. */
  lemma {:induction false} ByteCount(n: nat)
    requires n > 0
    ensures Width(n) > 0 && Pow256(Width(n) - 1) <= n < Pow256(Width(n))
  {
    if n < 256 {
      BitsOfByte(n);
      assert Pow256(1) == 256 * Pow256(0);
    } else {
      BitsOfMore(n);
      ByteCount(n / 256);
      var w := Width(n / 256);
      assert Width(n) == w + 1;
      assert Pow256(w + 1) == 256 * Pow256(w) && Pow256(w) == 256 * Pow256(w - 1);
    }
  }

  lemma {:induction false} Widths(w: nat, v: nat)
    requires w <= v
    ensures Pow256(w) <= Pow256(v)
    decreases v
  {
    if w < v {
      Widths(w, v - 1);
    }
  }

  /** `n` has exactly the width its size says. */
  lemma WidthOf(n: nat, w: nat)
    requires w > 0 && Pow256(w - 1) <= n < Pow256(w)
    ensures Width(n) == w
  {
    ByteCount(n);
    var v := Width(n);
    if v < w {
      Widths(v, w - 1);
    } else if w < v {
      Widths(w, v - 1);
    }
  }

  lemma {:induction false} FirstDigit(n: nat, w: nat)
    requires w > 0 && Pow256(w - 1) <= n < Pow256(w)
    ensures BigEndian(n, w)[0] != 0
    decreases w
  {
    if w == 1 {
      assert Pow256(1) == 256 * Pow256(0);
      assert BigEndian(n, 1) == [n % 256];
    } else {
      assert Pow256(w) == 256 * Pow256(w - 1) && Pow256(w - 1) == 256 * Pow256(w - 2);
      FirstDigit(n / 256, w - 1);
      assert BigEndian(n, w)[0] == BigEndian(n / 256, w - 1)[0];
    }
  }

  /**
   The length is written in the fewest octets (section 10.1 of ITU-T X.690): one octet below
   128, else a count and that many octets with the length's value and no leading zero.
   */
  lemma ShortestLength(tag: Byte, payload: seq<Byte>)
    requires Width(|payload|) < 128
    ensures var n := |payload|;
            var w := Width(n);
            && (n < 0x80 ==> Ber(tag, payload) == Some([tag, n] + payload))
            && (n >= 0x80 ==> Ber(tag, payload) == Some([tag, 0x80 + w] + BigEndian(n, w) + payload)
                              && w > 0 && FromBig(BigEndian(n, w)) == n && BigEndian(n, w)[0] != 0)
  {
    hide Width, BitLength, BigEndian, FromBig, Pow256;
    var n := |payload|;
    if n >= 0x80 {
      ByteCount(n);
      OrSeven(Width(n));
      BigRoundTrip(n, Width(n));
      FirstDigit(n, Width(n));
    }
  }

  // ---- the three agree ------------------------------------------------------------------

  lemma Powers()
    ensures Pow256(0) == 1 && Pow256(1) == 0x100 && Pow256(2) == 0x10000 && Pow256(3) == 0x1000000
  {
    assert Pow256(1) == 256 * Pow256(0);
    assert Pow256(2) == 256 * Pow256(1);
    assert Pow256(3) == 256 * Pow256(2);
  }

  lemma TwoOctets(n: nat)
    requires n < 0x10000
    ensures BigEndian(n, 1) == [n % 256] && BigEndian(n, 2) == [n / 256, n % 256]
  {
    assert BigEndian(n / 256, 1) == BigEndian(n / 256 / 256, 0) + [n / 256 % 256];
  }

  /** `tlv` raises exactly from 2^24 bytes on, and is `ber` below. */
  lemma TlvIsBer(tag: Byte, value: seq<Byte>)
    ensures Tlv(tag, value).Some? <==> |value| < 0x1000000
    ensures Tlv(tag, value).Some? ==> Tlv(tag, value) == Ber(tag, value)
  {
    hide Width, BitLength, BigEndian, FromBig, Pow256;
    var n := |value|;
    Powers();
    if 0x80 <= n < 0x1000000 {
      var w := if n < 0x100 then 1 else if n < 0x10000 then 2 else 3;
      WidthOf(n, w);
      OrSeven(w);
      if n < 0x100 {
        TwoOctets(n);
        assert [0x81, n] == [0x80 + w] + BigEndian(n, w);
      }
      assert [tag] + ([0x80 + w] + BigEndian(n, w)) + value == [tag, 0x80 + w] + BigEndian(n, w) + value;
    }
    assert n < 0x80 ==> [tag] + [n] + value == [tag, n] + value;
  }

  /** `der` raises exactly from 2^16 bytes on, and is `ber` below. */
  lemma DerIsBer(tag: Byte, content: seq<Byte>)
    ensures Der(tag, content).Some? <==> |content| < 0x10000
    ensures Der(tag, content).Some? ==> Der(tag, content) == Ber(tag, content)
  {
    hide Width, BitLength, BigEndian, FromBig, Pow256;
    var n := |content|;
    Powers();
    if 0x80 <= n < 0x10000 {
      var w := if n < 0x100 then 1 else 2;
      WidthOf(n, w);
      OrSeven(w);
      TwoOctets(n);
      assert n < 0x100 ==> [tag, 0x81, n] + content == [tag, 0x81] + [n] + content;
      assert n >= 0x100 ==> [tag, 0x82, n / 256, n % 256] + content == [tag, 0x82] + [n / 256, n % 256] + content;
    }
  }

  /** The reader gives back the length and the content of everything `der` writes. */
  lemma OuterReadsDer(tag: Byte, content: seq<Byte>)
    requires |content| < 0x10000
    ensures var b := Der(tag, content).value;
            && Outer(b).Some? && Outer(b).value.length == |content|
            && Outer(b).value.start <= |b| && b[Outer(b).value.start..] == content
  {
    var n := |content|;
    var b := Der(tag, content).value;
    assert n < 0x80 ==> b[2..] == content;
    assert 0x80 <= n <= 0xFF ==> b[3..] == content;
    assert n > 0xFF ==> b[4..] == content;
  }

  /** And it panics on a longer one, which `ber` and `tlv` can write. */
  lemma OuterRefusesLonger(tag: Byte, content: seq<Byte>)
    requires 0x10000 <= |content| && Width(|content|) < 128
    ensures Ber(tag, content).Some? && Outer(Ber(tag, content).value) == None
  {
    hide Width, BitLength, BigEndian, FromBig, Pow256;
    var n := |content|;
    Powers();
    ShortestLength(tag, content);
    ByteCount(n);
    if Width(n) < 3 {
      Widths(Width(n), 2);
    }
  }

  // ---- nested filters -------------------------------------------------------------------

  /** `levels` nested `&` filters around `inner`, one inside the other. */
  function NestedAnd(levels: nat, inner: seq<Byte>): Option<seq<Byte>> {
    if levels == 0 then Some(inner)
    else
      match NestedAnd(levels - 1, inner)
      case Some(v) => Tlv(0xA0, v)
      case None => None
  }

  function JoinReversed(headers: seq<seq<Byte>>): seq<Byte> {
    if headers == [] then [] else headers[|headers| - 1] + JoinReversed(headers[..|headers| - 1])
  }

  /** `ldap_nested_and`: all the headers first, from sizes alone. */
  method LdapNestedAnd(levels: nat, inner: seq<Byte>) returns (r: Option<seq<Byte>>)
    ensures r == NestedAnd(levels, inner)
  {
    hide BerLen, NestedAnd, JoinReversed;
    var headers: seq<seq<Byte>> := [];
    var size := |inner|;
    NoLevels(inner);
    for i := 0 to levels
      invariant NestedAnd(i, inner) == Some(JoinReversed(headers) + inner)
      invariant size == |JoinReversed(headers) + inner|
    {
      OneLevel(i, inner, headers);
      var ln := BerLen(size);
      if ln == None {
        RaisedBelow(i + 1, levels, inner);
        return None;
      }
      var header := [0xA0] + ln.value;
      headers := headers + [header];
      size := size + |header|;
    }
    return Some(JoinReversed(headers) + inner);
  }

  lemma NoLevels(inner: seq<Byte>)
    ensures NestedAnd(0, inner) == Some(JoinReversed([]) + inner) && |JoinReversed([])| == 0
  {
    assert [] + inner == inner;
  }

  /** One more level around what the headers so far stand for. */
  lemma OneLevel(i: nat, inner: seq<Byte>, headers: seq<seq<Byte>>)
    requires NestedAnd(i, inner) == Some(JoinReversed(headers) + inner)
    ensures var ln := BerLen(|JoinReversed(headers) + inner|);
            && (ln == None ==> NestedAnd(i + 1, inner) == None)
            && (ln.Some? ==>
                  var longer := headers + [[0xA0] + ln.value];
                  && NestedAnd(i + 1, inner) == Some(JoinReversed(longer) + inner)
                  && |JoinReversed(longer)| == |[0xA0] + ln.value| + |JoinReversed(headers)|)
  {
    hide BerLen;
    var all := JoinReversed(headers) + inner;
    var ln := BerLen(|all|);
    if ln.Some? {
      var longer := headers + [[0xA0] + ln.value];
      assert longer[..|headers|] == headers;
      assert [0xA0] + ln.value + JoinReversed(headers) + inner == [0xA0] + ln.value + all;
    }
  }

  lemma {:induction false} RaisedBelow(i: nat, levels: nat, inner: seq<Byte>)
    requires i <= levels && NestedAnd(i, inner) == None
    ensures NestedAnd(levels, inner) == None
    decreases levels
  {
    if i < levels {
      RaisedBelow(i, levels - 1, inner);
    }
  }
}
