/**
 The PackStream encoder of fuzz/seed_corpus.py, and a reader of the forms it writes as its
 specification. `None` is the exception the source raises.
 */
module PackStream {
  import opened Wrappers
  import opened WireBytes

  datatype Value =
    | Null
    | Bool(b: bool)
    | Int(i: int)
    | Str(utf8: seq<Byte>)
    | List(items: seq<Value>)
    | Dict(entries: seq<Entry>)
    | Struct(tag: Byte, fields: seq<Value>)

  datatype Entry = Entry(key: Value, value: Value)

  // ---- signed integers ------------------------------------------------------------------

  /** Half of the values of `w` bytes: 128, 32768, ... */
  function Half(w: nat): int {
    Pow256(w) / 2
  }

  predicate FitsIn(i: int, w: nat) {
    -Half(w) <= i < Half(w)
  }

  /** `struct.pack` of a signed number, big end first. */
  function Signed(i: int, w: nat): (s: seq<Byte>)
    requires FitsIn(i, w)
    ensures |s| == w
  {
    BigEndian(if i < 0 then i + Pow256(w) else i, w)
  }

  function FromSigned(s: seq<Byte>): int {
    if FromBig(s) < Half(|s|) then FromBig(s) else FromBig(s) - Pow256(|s|)
  }

  lemma SignedRoundTrip(i: int, w: nat)
    requires w > 0 && FitsIn(i, w)
    ensures FromSigned(Signed(i, w)) == i
  {
    assert Pow256(w) == 256 * Pow256(w - 1);
    BigRoundTrip(if i < 0 then i + Pow256(w) else i, w);
  }

  lemma {:induction false} FromBigFits(s: seq<Byte>)
    ensures FromBig(s) < Pow256(|s|)
    decreases |s|
  {
    if s != [] {
      FromBigFits(s[..|s| - 1]);
    }
  }

  lemma FromSignedFits(s: seq<Byte>)
    requires s != []
    ensures FitsIn(FromSigned(s), |s|)
  {
    FromBigFits(s);
    assert Pow256(|s|) == 256 * Pow256(|s| - 1);
  }

  lemma {:induction false} Wider(i: int, w: nat, v: nat)
    requires FitsIn(i, w) && w <= v
    ensures FitsIn(i, v)
    decreases v
  {
    if w < v {
      Wider(i, w, v - 1);
    }
  }

  /** `-128 <= i < 128` and the like. */
  lemma Halves()
    ensures Half(1) == 128 && Half(2) == 32768 && Half(4) == 0x80000000
  {
    assert Pow256(1) == 256 * Pow256(0) && Pow256(2) == 256 * Pow256(1);
    assert Pow256(3) == 256 * Pow256(2) && Pow256(4) == 256 * Pow256(3);
  }

  // ---- the encoder ----------------------------------------------------------------------

  function PsInt(i: int): Option<seq<Byte>> {
    if -16 <= i < 128 then Some([if i < 0 then i + 256 else i])
    else if FitsIn(i, 1) then Some([0xC8] + Signed(i, 1))
    else if FitsIn(i, 2) then Some([0xC9] + Signed(i, 2))
    else if FitsIn(i, 4) then Some([0xCA] + Signed(i, 4))
    else if FitsIn(i, 8) then Some([0xCB] + Signed(i, 8))
    else None
  }

  function PsStr(b: seq<Byte>): Option<seq<Byte>> {
    if |b| < 16 then OrNibble(8, |b|); Some([Or(0x80, |b|)] + b)
    else if |b| < 256 then Some([0xD0, |b|] + b)
    else if |b| < 65536 then Some([0xD1] + BigEndian(|b|, 2) + b)
    else None
  }

  /** The marker of a list or a dictionary of `n` members. */
  function Head(small: Byte, large: Byte, n: nat): Option<seq<Byte>>
    requires small % 16 == 0
  {
    if n < 16 then OrNibble(small / 16, n); Some([Or(small, n)])
    else if n < 256 then Some([large, n])
    else None
  }

  function Ps(v: Value): Option<seq<Byte>>
    decreases v
  {
    match v
    case Null => Some([0xC0])
    case Bool(b) => Some([if b then 0xC3 else 0xC2])
    case Int(i) => PsInt(i)
    case Str(b) => PsStr(b)
    case List(vs) => Then(Head(0x90, 0xD4, |vs|), PsAll(vs))
    case Dict(es) => Then(Head(0xA0, 0xD8, |es|), PsEntries(es))
    case Struct(tag, vs) =>
      Then(if Or(0xB0, |vs|) < 256 then Some([Or(0xB0, |vs|), tag]) else None, PsAll(vs))
  }

  function PsAll(vs: seq<Value>): Option<seq<Byte>>
    decreases vs
  {
    if vs == [] then Some([]) else Then(Ps(vs[0]), PsAll(vs[1..]))
  }

  function PsEntries(es: seq<Entry>): Option<seq<Byte>>
    decreases es
  {
    if es == [] then Some([]) else Then(PsEntry(es[0]), PsEntries(es[1..]))
  }

  function PsEntry(e: Entry): Option<seq<Byte>>
    decreases e
  {
    Then(Ps(e.key), Ps(e.value))
  }

  function Then(a: Option<seq<Byte>>, b: Option<seq<Byte>>): Option<seq<Byte>> {
    if a.Some? && b.Some? then Some(a.value + b.value) else None
  }

  /** The format's limits, as far as `ps` goes: a structure has at most 15 fields. */
  predicate Fits(v: Value)
    decreases v
  {
    match v
    case Null => true
    case Bool(_) => true
    case Int(i) => FitsIn(i, 8)
    case Str(b) => |b| < 65536
    case List(vs) => |vs| < 256 && FitsAll(vs)
    case Dict(es) => |es| < 256 && FitsEntries(es)
    case Struct(tag, vs) => |vs| < 16 && FitsAll(vs)
  }

  predicate FitsAll(vs: seq<Value>)
    decreases vs
  {
    vs == [] || (Fits(vs[0]) && FitsAll(vs[1..]))
  }

  predicate FitsEntries(es: seq<Entry>)
    decreases es
  {
    es == [] || (FitsEntry(es[0]) && FitsEntries(es[1..]))
  }

  predicate FitsEntry(e: Entry)
    decreases e
  {
    Fits(e.key) && Fits(e.value)
  }

  // ---- the reader -----------------------------------------------------------------------

  datatype Got<T> = Got(value: T, rest: seq<Byte>)

  /** A number of `w` bytes. */
  function ReadInt(s: seq<Byte>, w: nat): (r: Option<Got<Value>>)
    ensures r.Some? ==> |r.value.rest| <= |s|
  {
    if |s| < w then None else Some(Got(Int(FromSigned(s[..w])), s[w..]))
  }

  /** A string whose length takes `w` bytes. */
  function ReadStr(s: seq<Byte>, w: nat): (r: Option<Got<Value>>)
    ensures r.Some? ==> |r.value.rest| <= |s|
  {
    if |s| < w then None
    else
      var n := FromBig(s[..w]);
      if |s| < w + n then None else Some(Got(Str(s[w..w + n]), s[w + n..]))
  }

  function ReadText(s: seq<Byte>, n: nat): (r: Option<Got<Value>>)
    ensures r.Some? ==> |r.value.rest| <= |s|
  {
    if |s| < n then None else Some(Got(Str(s[..n]), s[n..]))
  }

  function AsList(r: Option<Got<seq<Value>>>): Option<Got<Value>> {
    if r.Some? then Some(Got(List(r.value.value), r.value.rest)) else None
  }

  function AsDict(r: Option<Got<seq<Entry>>>): Option<Got<Value>> {
    if r.Some? then Some(Got(Dict(r.value.value), r.value.rest)) else None
  }

  function AsStruct(tag: Byte, r: Option<Got<seq<Value>>>): Option<Got<Value>> {
    if r.Some? then Some(Got(Struct(tag, r.value.value), r.value.rest)) else None
  }

  function Read(s: seq<Byte>): (r: Option<Got<Value>>)
    ensures r.Some? ==> |r.value.rest| < |s|
    decreases |s|, 0
  {
    if s == [] then None
    else
      var m := s[0];
      var t := s[1..];
      if m < 0x80 then Some(Got(Int(m), t))
      else if m >= 0xF0 then Some(Got(Int(m as int - 256), t))
      else if m < 0x90 then ReadText(t, m - 0x80)
      else if m < 0xA0 then AsList(ReadMany(t, m - 0x90))
      else if m < 0xB0 then AsDict(ReadEntries(t, m - 0xA0))
      else if m < 0xC0 then (if t == [] then None else AsStruct(t[0], ReadMany(t[1..], m - 0xB0)))
      else if m == 0xC0 then Some(Got(Null, t))
      else if m == 0xC2 then Some(Got(Bool(false), t))
      else if m == 0xC3 then Some(Got(Bool(true), t))
      else if m == 0xC8 then ReadInt(t, 1)
      else if m == 0xC9 then ReadInt(t, 2)
      else if m == 0xCA then ReadInt(t, 4)
      else if m == 0xCB then ReadInt(t, 8)
      else if m == 0xD0 then ReadStr(t, 1)
      else if m == 0xD1 then ReadStr(t, 2)
      else if m == 0xD4 then (if t == [] then None else AsList(ReadMany(t[1..], t[0])))
      else if m == 0xD8 then (if t == [] then None else AsDict(ReadEntries(t[1..], t[0])))
      else None
  }

  function ReadMany(s: seq<Byte>, n: nat): (r: Option<Got<seq<Value>>>)
    ensures r.Some? ==> |r.value.rest| <= |s|
    decreases |s|, n + 1
  {
    if n == 0 then Some(Got([], s))
    else
      var first := Read(s);
      if first == None then None
      else
        var rest := ReadMany(first.value.rest, n - 1);
        if rest == None then None else Some(Got([first.value.value] + rest.value.value, rest.value.rest))
  }

  function ReadEntries(s: seq<Byte>, n: nat): (r: Option<Got<seq<Entry>>>)
    ensures r.Some? ==> |r.value.rest| <= |s|
    decreases |s|, n + 1
  {
    if n == 0 then Some(Got([], s))
    else
      var k := Read(s);
      if k == None then None
      else
        var v := Read(k.value.rest);
        if v == None then None
        else
          var rest := ReadEntries(v.value.rest, n - 1);
          if rest == None then None
          else Some(Got([Entry(k.value.value, v.value.value)] + rest.value.value, rest.value.rest))
  }

  // ---- reading back what was written ----------------------------------------------------

  lemma Split<T>(a: seq<T>, b: seq<T>, c: seq<T>)
    ensures a + b + c == a + (b + c)
    ensures (a + b)[..|a|] == a && (a + b)[|a|..] == b
  {
  }

  lemma ReadsInt(i: int, rest: seq<Byte>)
    requires FitsIn(i, 8)
    ensures PsInt(i).Some? && Read(PsInt(i).value + rest) == Some(Got(Int(i), rest))
  {
    Halves();
    hide FitsIn, Signed, FromSigned, Half;
    var s := PsInt(i).value + rest;
    if -16 <= i < 128 {
      assert s[1..] == rest;
    } else {
      var w := if FitsIn(i, 1) then 1 else if FitsIn(i, 2) then 2 else if FitsIn(i, 4) then 4 else 8;
      SignedRoundTrip(i, w);
      assert s[1..] == Signed(i, w) + rest;
      Split(Signed(i, w), rest, []);
    }
  }

  /** A string after its length. */
  lemma ReadsLong(b: seq<Byte>, w: nat, rest: seq<Byte>)
    requires |b| < Pow256(w)
    ensures ReadStr(BigEndian(|b|, w) + b + rest, w) == Some(Got(Str(b), rest))
  {
    var n := BigEndian(|b|, w);
    BigRoundTrip(|b|, w);
    hide BigEndian, FromBig, Pow256;
    var t := n + b + rest;
    assert t[..w] == n && t[w..w + |b|] == b && t[w + |b|..] == rest;
  }

  lemma ReadsShort(b: seq<Byte>, rest: seq<Byte>)
    requires |b| < 16
    ensures PsStr(b).Some? && Read(PsStr(b).value + rest) == Some(Got(Str(b), rest))
  {
    OrNibble(8, |b|);
    hide Or, BigEndian;
    var s := [0x80 + |b|] + b + rest;
    assert s[1..] == b + rest;
  }

  lemma ReadsStr(b: seq<Byte>, rest: seq<Byte>)
    requires |b| < 65536
    ensures PsStr(b).Some? && Read(PsStr(b).value + rest) == Some(Got(Str(b), rest))
  {
    assert Pow256(1) == 256 * Pow256(0) && Pow256(2) == 256 * Pow256(1);
    if |b| < 16 {
      ReadsShort(b, rest);
    } else {
      var w := if |b| < 256 then 1 else 2;
      assert BigEndian(|b|, 1) == [] + [|b| % 256];
      ReadsLong(b, w, rest);
      hide BigEndian, Pow256, ReadStr, Or;
      var s := PsStr(b).value + rest;
      assert s[1..] == BigEndian(|b|, w) + b + rest;
    }
  }

  /** A list or dictionary marker is read as its count. */
  lemma HeadOf(small: Byte, large: Byte, n: nat, rest: seq<Byte>)
    requires small % 16 == 0 && n < 256
    ensures var h := Head(small, large, n);
            && h.Some?
            && (n < 16 ==> h.value == [small + n] && (h.value + rest)[1..] == rest)
            && (n >= 16 ==> h.value == [large, n] && (h.value + rest)[1..] == [n] + rest && ([n] + rest)[1..] == rest)
  {
    if n < 16 {
      OrNibble(small / 16, n);
    }
  }

  lemma Joined(a: Option<seq<Byte>>, b: Option<seq<Byte>>, rest: seq<Byte>)
    requires Then(a, b).Some?
    ensures Then(a, b).value + rest == a.value + (b.value + rest)
  {
  }

  /** Reading gives back every value within the limits, and exactly the bytes after it. */
  lemma {:induction false} ReadsBack(v: Value, rest: seq<Byte>)
    requires Fits(v)
    ensures Ps(v).Some? && Read(Ps(v).value + rest) == Some(Got(v, rest))
    decreases v
  {
    match v
    case Null => assert ([0xC0] + rest)[1..] == rest;
    case Bool(b) => assert ([if b then 0xC3 else 0xC2] + rest)[1..] == rest;
    case Int(i) => ReadsInt(i, rest);
    case Str(b) => ReadsStr(b, rest);
    case List(vs) =>
      ReadsAll(vs, rest);
      ListOf(vs, PsAll(vs), rest);
    case Dict(es) =>
      ReadsEntries(es, rest);
      DictOf(es, PsEntries(es), rest);
    case Struct(tag, vs) =>
      ReadsAll(vs, rest);
      StructOf(tag, vs, PsAll(vs), rest);
  }

  lemma ListOf(vs: seq<Value>, body: Option<seq<Byte>>, rest: seq<Byte>)
    requires |vs| < 256 && body.Some? && ReadMany(body.value + rest, |vs|) == Some(Got(vs, rest))
    ensures var s := Then(Head(0x90, 0xD4, |vs|), body);
            s.Some? && Read(s.value + rest) == Some(Got(List(vs), rest))
  {
    hide Head, ReadMany;
    HeadOf(0x90, 0xD4, |vs|, body.value + rest);
    Joined(Head(0x90, 0xD4, |vs|), body, rest);
  }

  lemma DictOf(es: seq<Entry>, body: Option<seq<Byte>>, rest: seq<Byte>)
    requires |es| < 256 && body.Some? && ReadEntries(body.value + rest, |es|) == Some(Got(es, rest))
    ensures var s := Then(Head(0xA0, 0xD8, |es|), body);
            s.Some? && Read(s.value + rest) == Some(Got(Dict(es), rest))
  {
    hide Head, ReadEntries;
    HeadOf(0xA0, 0xD8, |es|, body.value + rest);
    Joined(Head(0xA0, 0xD8, |es|), body, rest);
  }

  lemma StructOf(tag: Byte, vs: seq<Value>, body: Option<seq<Byte>>, rest: seq<Byte>)
    requires |vs| < 16 && body.Some? && ReadMany(body.value + rest, |vs|) == Some(Got(vs, rest))
    ensures Or(0xB0, |vs|) == 0xB0 + |vs|
    ensures var s := Then(Some([0xB0 + |vs|, tag]), body);
            s.Some? && Read(s.value + rest) == Some(Got(Struct(tag, vs), rest))
  {
    hide ReadMany;
    OrNibble(11, |vs|);
    var h: seq<Byte> := [0xB0 + |vs|, tag];
    var t := body.value + rest;
    Joined(Some(h), body, rest);
    assert (h + t)[1..] == [tag] + t && ([tag] + t)[1..] == t;
  }

  lemma {:induction false} ReadsAll(vs: seq<Value>, rest: seq<Byte>)
    requires FitsAll(vs)
    ensures PsAll(vs).Some? && ReadMany(PsAll(vs).value + rest, |vs|) == Some(Got(vs, rest))
    decreases vs
  {
    if vs == [] {
      assert [] + rest == rest;
    } else {
      ReadsAll(vs[1..], rest);
      ReadsBack(vs[0], PsAll(vs[1..]).value + rest);
      Joined(Ps(vs[0]), PsAll(vs[1..]), rest);
      assert vs == [vs[0]] + vs[1..];
    }
  }

  lemma {:induction false} ReadsEntries(es: seq<Entry>, rest: seq<Byte>)
    requires FitsEntries(es)
    ensures PsEntries(es).Some? && ReadEntries(PsEntries(es).value + rest, |es|) == Some(Got(es, rest))
    decreases es
  {
    if es == [] {
      assert [] + rest == rest;
    } else {
      var e := es[0];
      ReadsEntries(es[1..], rest);
      var t := PsEntries(es[1..]).value + rest;
      ReadsEntry(e, t);
      Joined(PsEntry(e), PsEntries(es[1..]), rest);
      assert es == [e] + es[1..];
    }
  }

  lemma {:induction false} ReadsEntry(e: Entry, t: seq<Byte>)
    requires FitsEntry(e)
    ensures PsEntry(e).Some?
    ensures var k := Read(PsEntry(e).value + t);
            k.Some? && k.value.value == e.key && Read(k.value.rest) == Some(Got(e.value, t))
    decreases e
  {
    ReadsBack(e.value, t);
    ReadsBack(e.key, Ps(e.value).value + t);
    Joined(Ps(e.key), Ps(e.value), t);
  }

  // ---- exactly the values within the limits ---------------------------------------------

  lemma ShortText(t: seq<Byte>, w: nat)
    requires w <= 2
    ensures var r := ReadStr(t, w); r.Some? ==> Fits(r.value.value)
  {
    assert Pow256(1) == 256 * Pow256(0) && Pow256(2) == 256 * Pow256(1);
    if |t| >= w {
      FromBigFits(t[..w]);
    }
  }

  lemma ShortInt(t: seq<Byte>, w: nat)
    requires 1 <= w <= 8
    ensures var r := ReadInt(t, w); r.Some? ==> Fits(r.value.value)
  {
    if |t| >= w {
      FromSignedFits(t[..w]);
      Wider(FromSigned(t[..w]), w, 8);
    }
  }

  lemma ByteFits(i: int)
    requires -16 <= i < 128
    ensures Fits(Int(i))
  {
    Halves();
    Wider(i, 1, 8);
  }

  /** The reader gives only values within the limits. */
  lemma {:induction false} ReadFits(s: seq<Byte>)
    ensures Read(s).Some? ==> Fits(Read(s).value.value)
    decreases |s|, 0
  {
    hide FitsIn, ReadInt, ReadStr, FitsAll, FitsEntries, ReadMany, ReadEntries;
    if s != [] {
      var m := s[0];
      var t := s[1..];
      if m < 0x80 {
        ByteFits(m);
      } else if m >= 0xF0 {
        ByteFits(m as int - 256);
      } else if 0x90 <= m < 0xA0 {
        ManyFit(t, m - 0x90);
      } else if 0xA0 <= m < 0xB0 {
        EntriesFit(t, m - 0xA0);
      } else if 0xB0 <= m < 0xC0 && t != [] {
        ManyFit(t[1..], m - 0xB0);
      } else if m == 0xD4 && t != [] {
        ManyFit(t[1..], t[0]);
      } else if m == 0xD8 && t != [] {
        EntriesFit(t[1..], t[0]);
      } else if m >= 0xC8 {
        ShortInt(t, 1);
        ShortInt(t, 2);
        ShortInt(t, 4);
        ShortInt(t, 8);
        ShortText(t, 1);
        ShortText(t, 2);
      }
    }
  }

  lemma {:induction false} ManyFit(s: seq<Byte>, n: nat)
    ensures var r := ReadMany(s, n); r.Some? ==> |r.value.value| == n && FitsAll(r.value.value)
    decreases |s|, n + 1
  {
    if n > 0 {
      ReadFits(s);
      var first := Read(s);
      if first.Some? {
        ManyFit(first.value.rest, n - 1);
        var rest := ReadMany(first.value.rest, n - 1);
        if rest.Some? {
          assert ([first.value.value] + rest.value.value)[1..] == rest.value.value;
        }
      }
    }
  }

  lemma {:induction false} EntriesFit(s: seq<Byte>, n: nat)
    ensures var r := ReadEntries(s, n); r.Some? ==> |r.value.value| == n && FitsEntries(r.value.value)
    decreases |s|, n + 1
  {
    if n > 0 {
      ReadFits(s);
      var k := Read(s);
      if k.Some? {
        ReadFits(k.value.rest);
        var v := Read(k.value.rest);
        if v.Some? {
          EntriesFit(v.value.rest, n - 1);
          var rest := ReadEntries(v.value.rest, n - 1);
          if rest.Some? {
            assert ([Entry(k.value.value, v.value.value)] + rest.value.value)[1..] == rest.value.value;
          }
        }
      }
    }
  }

  /** A value is read back exactly when it is within the limits. */
  lemma ReadsBackIff(v: Value, rest: seq<Byte>)
    requires Ps(v).Some?
    ensures Read(Ps(v).value + rest) == Some(Got(v, rest)) <==> Fits(v)
  {
    hide Read, Ps, Fits;
    ReadFits(Ps(v).value + rest);
    if Fits(v) {
      ReadsBack(v, rest);
    }
  }

  /** No value's bytes start another's. */
  lemma PrefixFree(v: Value, w: Value)
    requires Fits(v) && Fits(w)
    ensures Ps(v).Some? && Ps(w).Some?
    ensures Ps(v).value <= Ps(w).value ==> v == w
  {
    hide Read, Ps, Fits;
    ReadsBack(v, []);
    ReadsBack(w, []);
    var a, b := Ps(v).value, Ps(w).value;
    if a <= b {
      ReadsBack(v, b[|a|..]);
      assert a + b[|a|..] == b == b + [];
    }
  }

  lemma SixteenIsLost()
    ensures Or(0xB0, 16) == 0xB0
  {
    assert Or(0x0B, 1) == 2 * Or(5, 0) + 1;
    assert Or(0x2C, 4) == 2 * (2 * Or(0x0B, 1));
    assert Or(0xB0, 16) == 2 * (2 * Or(0x2C, 4));
  }

  /** A structure of 16 fields is written with the marker of an empty one. */
  lemma SixteenFields(tag: Byte, vs: seq<Value>)
    requires |vs| == 16 && PsAll(vs).Some?
    ensures Ps(Struct(tag, [])).Some? && Ps(Struct(tag, vs)).Some?
    ensures Ps(Struct(tag, [])).value <= Ps(Struct(tag, vs)).value
  {
    SixteenIsLost();
    var body := PsAll(vs);
    hide Or, PsAll;
    assert Ps(Struct(tag, vs)) == Then(Some([0xB0, tag]), body);
    EmptyStruct(tag);
  }

  lemma EmptyStruct(tag: Byte)
    ensures Ps(Struct(tag, [])) == Some([0xB0, tag])
  {
    OrNibble(11, 0);
    var head: seq<Byte> := [0xB0, tag];
    assert head + [] == head;
  }
}
