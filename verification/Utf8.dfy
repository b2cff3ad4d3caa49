/**
 Lines of text as the bytes Rust's `String` holds (UTF-8, section 3 of RFC 3629), and the
 byte positions that characters start at.
 */
module Utf8 {

  type Byte = b: int | 0 <= b < 256

  /** A Unicode scalar value. */
  type Scalar = c: int | 0 <= c < 0xD800 || 0xE000 <= c < 0x110000

  const REPLACEMENT: Scalar := 0xFFFD

  function Encode(c: Scalar): (bs: seq<Byte>)
    ensures 1 <= |bs| <= 4
  {
    if c < 0x80 then [c]
    else if c < 0x800 then [0xC0 + c / 64, 0x80 + c % 64]
    else if c < 0x10000 then [0xE0 + c / 4096, 0x80 + c / 64 % 64, 0x80 + c % 64]
    else [0xF0 + c / 262144, 0x80 + c / 4096 % 64, 0x80 + c / 64 % 64, 0x80 + c % 64]
  }

  /** How many bytes the character that starts with `b` has. */
  function Width(b: Byte): (w: nat)
    ensures 1 <= w <= 4
  {
    if b < 0x80 then 1 else if b < 0xE0 then 2 else if b < 0xF0 then 3 else 4
  }

  predicate Continuation(b: Byte) {
    0x80 <= b < 0xC0
  }

  function AsScalar(c: int): Scalar {
    if 0 <= c < 0xD800 || 0xE000 <= c < 0x110000 then c else REPLACEMENT
  }

  /** The first character of `s`, which has `w` bytes. */
  function FirstChar(s: seq<Byte>, w: nat): Scalar
    requires |s| > 0
  {
    if w > |s| then REPLACEMENT
    else if w <= 1 then AsScalar(s[0])
    else if w == 2 then AsScalar((s[0] as int - 0xC0) * 64 + (s[1] as int - 0x80))
    else if w == 3 then AsScalar((s[0] as int - 0xE0) * 4096 + (s[1] as int - 0x80) * 64 + (s[2] as int - 0x80))
    else AsScalar((s[0] as int - 0xF0) * 262144 + (s[1] as int - 0x80) * 4096 + (s[2] as int - 0x80) * 64 + (s[3] as int - 0x80))
  }

  function Step(s: seq<Byte>): (w: nat)
    requires |s| > 0
    ensures 1 <= w <= |s|
  {
    if Width(s[0]) <= |s| then Width(s[0]) else |s|
  }

  /** The characters of a line. */
  function Chars(s: seq<Byte>): seq<Scalar> {
    if s == [] then [] else [FirstChar(s, Width(s[0]))] + Chars(s[Step(s)..])
  }

  /** The bytes of a sequence of characters. */
  function Bytes(cs: seq<Scalar>): seq<Byte> {
    if cs == [] then [] else Encode(cs[0]) + Bytes(cs[1..])
  }

  /** Bytes that are valid UTF-8. */
  predicate IsText(s: seq<Byte>) {
    Bytes(Chars(s)) == s
  }

  /** Rust's `is_char_boundary`: string operations may cut only here. */
  predicate Boundary(s: seq<Byte>, i: nat) {
    i == |s| || (i < |s| && !Continuation(s[i]))
  }

  /** The byte offset of the `k`th character, or the end of the line. */
  function ByteOffset(s: seq<Byte>, k: nat): (i: nat)
    ensures i <= |s|
    decreases |s|
  {
    if s == [] || k == 0 then 0 else Step(s) + ByteOffset(s[Step(s)..], k - 1)
  }

  // ---- characters and bytes -------------------------------------------------------------

  lemma FirstIsEncoded(c: Scalar, rest: seq<Byte>)
    ensures var s := Encode(c) + rest;
            Width(s[0]) == |Encode(c)| && FirstChar(s, Width(s[0])) == c && !Continuation(s[0])
  {
    var s := Encode(c) + rest;
    assert c == c / 64 * 64 + c % 64;
    assert c / 64 == c / 4096 * 64 + c / 64 % 64;
    assert c / 4096 == c / 262144 * 64 + c / 4096 % 64;
  }

  /** Decoding gives back what was encoded. */
  lemma {:induction false} CharsOfBytes(cs: seq<Scalar>)
    ensures Chars(Bytes(cs)) == cs && IsText(Bytes(cs))
    decreases |cs|
  {
    if cs != [] {
      var s := Bytes(cs);
      FirstIsEncoded(cs[0], Bytes(cs[1..]));
      assert s[|Encode(cs[0])|..] == Bytes(cs[1..]);
      CharsOfBytes(cs[1..]);
      assert Step(s) == |Encode(cs[0])|;
      assert Chars(s) == [cs[0]] + cs[1..];
    }
  }

  lemma {:induction false} BytesConcat(a: seq<Scalar>, b: seq<Scalar>)
    ensures Bytes(a + b) == Bytes(a) + Bytes(b)
    decreases |a|
  {
    if a == [] {
      assert a + b == b;
    } else {
      assert (a + b)[1..] == a[1..] + b;
      BytesConcat(a[1..], b);
    }
  }

  /** Byte offsets of characters are where the earlier characters' bytes end. */
  lemma {:induction false} OffsetOfBytes(cs: seq<Scalar>, k: nat)
    ensures ByteOffset(Bytes(cs), k) == if k <= |cs| then |Bytes(cs[..k])| else |Bytes(cs)|
    decreases |cs|
  {
    hide Encode;
    var s := Bytes(cs);
    if cs != [] && k > 0 {
      FirstIsEncoded(cs[0], Bytes(cs[1..]));
      assert s[Step(s)..] == Bytes(cs[1..]);
      OffsetOfBytes(cs[1..], k - 1);
      if k <= |cs| {
        assert cs[..k][1..] == cs[1..][..k - 1];
      }
    }
  }

  lemma CutBytes(cs: seq<Scalar>, k: nat)
    requires k <= |cs|
    ensures var s := Bytes(cs);
            var i := ByteOffset(s, k);
            i <= |s| && s[..i] == Bytes(cs[..k]) && s[i..] == Bytes(cs[k..])
  {
    hide Encode, ByteOffset;
    OffsetOfBytes(cs, k);
    BytesConcat(cs[..k], cs[k..]);
    assert cs[..k] + cs[k..] == cs;
  }

  lemma StartsChar(cs: seq<Scalar>)
    requires cs != []
    ensures Bytes(cs) != [] && !Continuation(Bytes(cs)[0])
  {
    FirstIsEncoded(cs[0], Bytes(cs[1..]));
  }

  /** A line cut at a character: both halves are text, and the cut is at a boundary. */
  lemma CutLine(s: seq<Byte>, k: nat)
    requires IsText(s) && k <= |Chars(s)|
    ensures var i := ByteOffset(s, k);
            && i <= |s| && Boundary(s, i)
            && s[..i] == Bytes(Chars(s)[..k]) && s[i..] == Bytes(Chars(s)[k..])
  {
    hide ByteOffset, Chars;
    var cs := Chars(s);
    CutBytes(cs, k);
    var i := ByteOffset(s, k);
    if k < |cs| {
      StartsChar(cs[k..]);
      assert s[i] == s[i..][0];
    } else {
      assert cs[..k] == cs;
    }
  }

  /** The character at a cut is removed by its own width. */
  lemma DropChar(s: seq<Byte>, k: nat)
    requires IsText(s) && k < |Chars(s)|
    ensures var i := ByteOffset(s, k);
            && i < |s| && i + Width(s[i]) == ByteOffset(s, k + 1) <= |s|
  {
    hide Encode, ByteOffset;
    var cs := Chars(s);
    CutLine(s, k);
    CutLine(s, k + 1);
    FirstIsEncoded(cs[k], Bytes(cs[k + 1..]));
    assert cs[k..][1..] == cs[k + 1..];
    assert Bytes(cs[k..]) == Encode(cs[k]) + Bytes(cs[k + 1..]);
    assert s[ByteOffset(s, k)] == Bytes(cs[k..])[0];
  }

  // ---- the string operations the editor uses; each panics off a boundary ----------------

  function InsertAt(s: seq<Byte>, i: nat, c: Scalar): seq<Byte>
    requires Boundary(s, i)
  {
    s[..i] + Encode(c) + s[i..]
  }

  function RemoveAt(s: seq<Byte>, i: nat): seq<Byte>
    requires Boundary(s, i) && i < |s|
  {
    s[..i] + s[i..][Step(s[i..])..]
  }

  function Truncate(s: seq<Byte>, i: nat): seq<Byte>
    requires Boundary(s, i)
  {
    s[..i]
  }

  function From(s: seq<Byte>, i: nat): seq<Byte>
    requires Boundary(s, i)
  {
    s[i..]
  }

  function RemoveRange(s: seq<Byte>, i: nat, j: nat): seq<Byte>
    requires i <= j && Boundary(s, i) && Boundary(s, j)
  {
    s[..i] + s[j..]
  }

  /** Characters `a` up to `b` of a line replaced by others. */
  lemma Splice(s: seq<Byte>, a: nat, b: nat, mid: seq<Scalar>)
    requires IsText(s) && a <= b <= |Chars(s)|
    ensures Boundary(s, ByteOffset(s, a)) && Boundary(s, ByteOffset(s, b))
    ensures ByteOffset(s, a) <= ByteOffset(s, b)
    ensures var t := s[..ByteOffset(s, a)] + Bytes(mid) + s[ByteOffset(s, b)..];
            IsText(t) && Chars(t) == Chars(s)[..a] + mid + Chars(s)[b..]
  {
    hide ByteOffset, Chars, Boundary, Bytes, IsText;
    var cs := Chars(s);
    CutLine(s, a);
    CutLine(s, b);
    BytesConcat(cs[..a], mid);
    BytesConcat(cs[..a] + mid, cs[b..]);
    CharsOfBytes(cs[..a] + mid + cs[b..]);
    BytesConcat(cs[..a], cs[a..b]);
    assert cs[..a] + cs[a..b] == cs[..b];
  }

  lemma OneChar(c: Scalar)
    ensures Bytes([c]) == Encode(c)
  {
    assert [c][1..] == [];
  }

  lemma InsertedText(s: seq<Byte>, k: nat, c: Scalar)
    requires IsText(s) && k <= |Chars(s)|
    ensures Boundary(s, ByteOffset(s, k))
    ensures var t := InsertAt(s, ByteOffset(s, k), c);
            IsText(t) && Chars(t) == Chars(s)[..k] + [c] + Chars(s)[k..]
  {
    hide ByteOffset, Chars, Boundary, Bytes, IsText, Encode;
    Splice(s, k, k, [c]);
    OneChar(c);
  }

  lemma RemovedText(s: seq<Byte>, a: nat, b: nat)
    requires IsText(s) && a <= b <= |Chars(s)|
    ensures Boundary(s, ByteOffset(s, a)) && Boundary(s, ByteOffset(s, b))
    ensures ByteOffset(s, a) <= ByteOffset(s, b)
    ensures var t := RemoveRange(s, ByteOffset(s, a), ByteOffset(s, b));
            IsText(t) && Chars(t) == Chars(s)[..a] + Chars(s)[b..]
  {
    hide ByteOffset, Chars, Boundary, IsText;
    Splice(s, a, b, []);
    var i, j := ByteOffset(s, a), ByteOffset(s, b);
    assert s[..i] + [] + s[j..] == s[..i] + s[j..];
    assert Chars(s)[..a] + [] + Chars(s)[b..] == Chars(s)[..a] + Chars(s)[b..];
  }

  lemma RemovedChar(s: seq<Byte>, k: nat)
    requires IsText(s) && k < |Chars(s)|
    ensures var i := ByteOffset(s, k);
            && i < |s| && Boundary(s, i)
            && IsText(RemoveAt(s, i)) && Chars(RemoveAt(s, i)) == Chars(s)[..k] + Chars(s)[k + 1..]
  {
    hide ByteOffset, Chars, Boundary, IsText;
    RemovedText(s, k, k + 1);
    DropChar(s, k);
    var i := ByteOffset(s, k);
    assert s[i..][0] == s[i];
    assert s[i..][Step(s[i..])..] == s[ByteOffset(s, k + 1)..];
  }

  lemma TruncatedText(s: seq<Byte>, k: nat)
    requires IsText(s) && k <= |Chars(s)|
    ensures Boundary(s, ByteOffset(s, k))
    ensures var t := Truncate(s, ByteOffset(s, k)); IsText(t) && Chars(t) == Chars(s)[..k]
    ensures var t := From(s, ByteOffset(s, k)); IsText(t) && Chars(t) == Chars(s)[k..]
  {
    hide ByteOffset, Chars, Boundary, Bytes, IsText;
    CutLine(s, k);
    CharsOfBytes(Chars(s)[..k]);
    CharsOfBytes(Chars(s)[k..]);
  }

  lemma JoinedText(s: seq<Byte>, t: seq<Byte>)
    requires IsText(s) && IsText(t)
    ensures IsText(s + t) && Chars(s + t) == Chars(s) + Chars(t)
  {
    BytesConcat(Chars(s), Chars(t));
    CharsOfBytes(Chars(s) + Chars(t));
  }
}
