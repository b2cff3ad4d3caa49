/**
 The UTF-8 decoder behind `new TextDecoder()`, byte by byte (sections "utf-8 decoder" and
 "serialize I/O queue" of the WHATWG Encoding Standard), with replacement on error.
 */
module TextDecoder {
  import opened Utf8

  const BOM: Scalar := 0xFEFF

  datatype Decoder = Decoder(point: nat, seen: nat, needed: nat, lower: Byte, upper: Byte, bomSeen: bool)

  function Fresh(bomSeen: bool): Decoder {
    Decoder(0, 0, 0, 0x80, 0xBF, bomSeen)
  }

  /** The first character that comes out is dropped if it is a byte order mark. */
  function Serialize(d: Decoder, out: seq<Scalar>): (Decoder, seq<Scalar>) {
    if d.bomSeen || out == [] then (d, out)
    else (d.(bomSeen := true), if out[0] == BOM then out[1..] else out)
  }

  /** A byte that starts a character. */
  function Lead(d: Decoder, b: Byte): (Decoder, seq<Scalar>) {
    if b <= 0x7F then (d, [b])
    else if 0xC2 <= b <= 0xDF then (d.(needed := 1, point := b - 0xC0), [])
    else if 0xE0 <= b <= 0xEF then
      (d.(needed := 2, point := b - 0xE0,
          lower := if b == 0xE0 then 0xA0 else d.lower, upper := if b == 0xED then 0x9F else d.upper), [])
    else if 0xF0 <= b <= 0xF4 then
      (d.(needed := 3, point := b - 0xF0,
          lower := if b == 0xF0 then 0x90 else d.lower, upper := if b == 0xF4 then 0x8F else d.upper), [])
    else (d, [REPLACEMENT])
  }

  function Handle(d: Decoder, b: Byte): (Decoder, seq<Scalar>) {
    if d.needed == 0 then Lead(d, b)
    else if !(d.lower <= b <= d.upper) then
      var (e, out) := Lead(Fresh(d.bomSeen), b);
      (e, [REPLACEMENT] + out)
    else
      var point := d.point * 64 + b % 64;
      if d.seen + 1 != d.needed then
        (d.(point := point, seen := d.seen + 1, lower := 0x80, upper := 0xBF), [])
      else (Fresh(d.bomSeen), [AsScalar(point)])
  }

  function Feed(d: Decoder, b: Byte): (Decoder, seq<Scalar>) {
    var (e, out) := Handle(d, b);
    Serialize(e, out)
  }

  /** `decode(s, {stream: true})` */
  function Decode(d: Decoder, s: seq<Byte>): (Decoder, seq<Scalar>)
    decreases |s|
  {
    if s == [] then (d, [])
    else
      var (e, out) := Feed(d, s[0]);
      var (f, more) := Decode(e, s[1..]);
      (f, out + more)
  }

  /** `decode()`: an unfinished character is replaced. */
  function Flush(d: Decoder): seq<Scalar> {
    if d.needed == 0 then [] else Serialize(d, [REPLACEMENT]).1
  }

  // ---- streaming ------------------------------------------------------------------------

  /** Decoding does not depend on where the stream was cut. */
  lemma {:induction false} DecodeConcat(d: Decoder, s: seq<Byte>, t: seq<Byte>)
    ensures var (e, out) := Decode(d, s);
            var (f, more) := Decode(e, t);
            Decode(d, s + t) == (f, out + more)
    decreases |s|
  {
    hide Feed;
    if s == [] {
      assert s + t == t;
      assert [] + Decode(d, t).1 == Decode(d, t).1;
    } else {
      assert (s + t)[1..] == s[1..] + t;
      var (e, out) := Feed(d, s[0]);
      DecodeConcat(e, s[1..], t);
      var (f, more) := Decode(e, s[1..]);
      assert Decode(d, s) == (f, out + more);
      assert out + more + Decode(f, t).1 == out + (more + Decode(f, t).1);
    }
  }

  // ---- text -----------------------------------------------------------------------------

  lemma DecodeSilent(d: Decoder, b: Byte, t: seq<Byte>)
    requires Feed(d, b).1 == []
    ensures Decode(d, [b] + t) == Decode(Feed(d, b).0, t)
  {
    hide Feed;
    assert ([b] + t)[1..] == t;
    assert [] + Decode(Feed(d, b).0, t).1 == Decode(Feed(d, b).0, t).1;
  }

  lemma DecodeLast(d: Decoder, b: Byte)
    ensures Decode(d, [b]) == Feed(d, b)
  {
    hide Feed;
    assert [b][1..] == [];
    assert Feed(d, b).1 + [] == Feed(d, b).1;
  }

  /** What comes out of a character: itself, unless it is a leading byte order mark. */
  function Passed(bomSeen: bool, cs: seq<Scalar>): seq<Scalar> {
    if !bomSeen && cs != [] && cs[0] == BOM then cs[1..] else cs
  }

  /** A continuation byte in place. */
  lemma Continue(d: Decoder, b: Byte)
    requires d.needed > 0 && d.lower <= b <= d.upper && 0x80 <= d.lower && d.upper <= 0xBF
    requires d.seen + 1 < d.needed
    ensures Feed(d, b) == (Decoder(d.point * 64 + (b - 0x80), d.seen + 1, d.needed, 0x80, 0xBF, d.bomSeen), [])
  {
  }

  lemma Complete(d: Decoder, b: Byte, c: Scalar)
    requires d.needed > 0 && 0x80 <= b <= 0xBF && d.lower == 0x80 && d.upper == 0xBF
    requires d.seen + 1 == d.needed && d.point * 64 + (b - 0x80) == c
    ensures Feed(d, b) == (Fresh(true), Passed(d.bomSeen, [c]))
  {
    assert b % 64 == b - 0x80;
    assert [c][1..] == [];
  }

  lemma OneOrTwo(bom: bool, c: Scalar)
    requires c < 0x800
    ensures Decode(Fresh(bom), Encode(c)) == (Fresh(true), Passed(bom, [c]))
  {
    var s := Encode(c);
    var d := Fresh(bom);
    if c < 0x80 {
      DecodeLast(d, s[0]);
    } else {
      assert s == [s[0]] + [s[1]];
      var e := d.(needed := 1, point := c / 64);
      assert Feed(d, s[0]) == (e, []);
      DecodeSilent(d, s[0], [s[1]]);
      DecodeLast(e, s[1]);
      Complete(e, s[1], c);
    }
  }

  lemma Three(bom: bool, c: Scalar)
    requires 0x800 <= c < 0x10000
    ensures Decode(Fresh(bom), Encode(c)) == (Fresh(true), Passed(bom, [c]))
  {
    var s := Encode(c);
    var d := Fresh(bom);
    assert c / 64 == c / 4096 * 64 + c / 64 % 64;
    assert c == c / 64 * 64 + c % 64;
    var e := Feed(d, s[0]).0;
    assert Feed(d, s[0]).1 == [] && e.point == c / 4096 && e.needed == 2;
    hide Feed, Decode, Encode;
    Continue(e, s[1]);
    var f := Feed(e, s[1]).0;
    Complete(f, s[2], c);
    assert s == [s[0]] + ([s[1]] + [s[2]]);
    DecodeSilent(d, s[0], [s[1]] + [s[2]]);
    DecodeSilent(e, s[1], [s[2]]);
    DecodeLast(f, s[2]);
  }

  lemma Four(bom: bool, c: Scalar)
    requires 0x10000 <= c
    ensures Decode(Fresh(bom), Encode(c)) == (Fresh(true), Passed(bom, [c]))
  {
    var s := Encode(c);
    var d := Fresh(bom);
    assert c / 4096 == c / 262144 * 64 + c / 4096 % 64;
    assert c / 64 == c / 4096 * 64 + c / 64 % 64;
    assert c == c / 64 * 64 + c % 64;
    var e := Feed(d, s[0]).0;
    assert Feed(d, s[0]).1 == [] && e.point == c / 262144 && e.needed == 3;
    hide Feed, Decode, Encode;
    Continue(e, s[1]);
    var f := Feed(e, s[1]).0;
    Continue(f, s[2]);
    var g := Feed(f, s[2]).0;
    Complete(g, s[3], c);
    assert s == [s[0]] + ([s[1]] + ([s[2]] + [s[3]]));
    DecodeSilent(d, s[0], [s[1]] + ([s[2]] + [s[3]]));
    DecodeSilent(e, s[1], [s[2]] + [s[3]]);
    DecodeSilent(f, s[2], [s[3]]);
    DecodeLast(g, s[3]);
  }

  lemma DecodeChar(bom: bool, c: Scalar)
    ensures Decode(Fresh(bom), Encode(c)) == (Fresh(true), Passed(bom, [c]))
  {
    if c < 0x800 {
      OneOrTwo(bom, c);
    } else if c < 0x10000 {
      Three(bom, c);
    } else {
      Four(bom, c);
    }
  }

  /** Decoding encoded text gives the text, less a leading byte order mark. */
  lemma {:induction false} DecodeText(bom: bool, cs: seq<Scalar>)
    ensures Decode(Fresh(bom), Bytes(cs)) == (Fresh(bom || cs != []), Passed(bom, cs))
    decreases |cs|
  {
    hide Encode, Feed;
    if cs != [] {
      DecodeChar(bom, cs[0]);
      DecodeText(true, cs[1..]);
      DecodeConcat(Fresh(bom), Encode(cs[0]), Bytes(cs[1..]));
      assert cs == [cs[0]] + cs[1..];
      assert Passed(bom, [cs[0]]) + cs[1..] == Passed(bom, cs);
      assert Passed(true, cs[1..]) == cs[1..];
    }
  }
}
