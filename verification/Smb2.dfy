/**
 SMB2 compounding (fuzz/seed_corpus.py) and the walk over NextCommand that undoes it
 (fuzz/fuzz_targets/smb2_request.rs; section 2.2.1.2 of MS-SMB2).
 */
module Smb2 {
  import opened Wrappers
  import opened WireBytes

  const HEADER_LEN: nat := 64
  const PROTOCOL_ID: seq<Byte> := [0xFE, 0x53, 0x4D, 0x42]

  /** The zeros that fill a message up to a multiple of eight. */
  function Padding(m: seq<Byte>): (s: seq<Byte>)
    ensures (|m| + |s|) % 8 == 0 && |s| < 8
  {
    Zeros((8 - |m| % 8) % 8)
  }

  /** Python slices: they stop at the end. */
  function Upto(s: seq<Byte>, n: nat): seq<Byte> {
    if n <= |s| then s[..n] else s
  }

  function Beyond(s: seq<Byte>, n: nat): seq<Byte> {
    if n <= |s| then s[n..] else []
  }

  /** A message with its NextCommand set to its padded length; `None` if that is past 32 bits. */
  function Linked(m: seq<Byte>): Option<seq<Byte>> {
    var p := m + Padding(m);
    if |p| < 0x1_0000_0000 then Some(Upto(p, 20) + LittleEndian(|p|, 4) + Beyond(p, 24)) else None
  }

  /** The messages as they are laid out: all but the last linked. */
  function Laid(msgs: seq<seq<Byte>>): Option<seq<seq<Byte>>> {
    if |msgs| <= 1 then Some(msgs)
    else
      match (Linked(msgs[0]), Laid(msgs[1..]))
      case (Some(m), Some(rest)) => Some([m] + rest)
      case _ => None
  }

  function Join(msgs: seq<seq<Byte>>): seq<Byte> {
    if msgs == [] then [] else msgs[0] + Join(msgs[1..])
  }

  function Compound(msgs: seq<seq<Byte>>): Option<seq<Byte>> {
    match Laid(msgs)
    case Some(laid) => Some(Join(laid))
    case None => None
  }

  method Smb2Compound(msgs: seq<seq<Byte>>) returns (r: Option<seq<Byte>>)
    ensures r == Compound(msgs)
  {
    hide Linked;
    var out: seq<Byte> := [];
    ghost var done: seq<seq<Byte>> := [];
    PrependNone(Laid(msgs));
    assert msgs[0..] == msgs;
    for i := 0 to |msgs|
      invariant out == Join(done)
      invariant Laid(msgs) == Prepend(done, Laid(msgs[i..]))
    {
      assert msgs[i..][1..] == msgs[i + 1..];
      var m := msgs[i];
      if i + 1 < |msgs| {
        var linked := Linked(m);
        if linked == None {
          return None;
        }
        m := linked.value;
      }
      PrependSnoc(done, m, Laid(msgs[i + 1..]));
      assert i + 1 == |msgs| ==> msgs[i..] == [m] + msgs[i + 1..];
      JoinSnoc(done, m);
      done := done + [m];
      out := out + m;
    }
    assert msgs[|msgs|..] == [];
    assert done + [] == done;
    return Some(out);
  }

  function Prepend(done: seq<seq<Byte>>, rest: Option<seq<seq<Byte>>>): Option<seq<seq<Byte>>> {
    if rest == None then None else Some(done + rest.value)
  }

  lemma PrependNone(rest: Option<seq<seq<Byte>>>)
    ensures Prepend([], rest) == rest
  {
    assert rest.Some? ==> [] + rest.value == rest.value;
  }

  lemma PrependSnoc(done: seq<seq<Byte>>, m: seq<Byte>, rest: Option<seq<seq<Byte>>>)
    ensures rest.Some? ==> Prepend(done, Some([m] + rest.value)) == Prepend(done + [m], rest)
  {
    if rest.Some? {
      assert done + ([m] + rest.value) == done + [m] + rest.value;
    }
  }

  lemma {:induction false} JoinSnoc(ms: seq<seq<Byte>>, m: seq<Byte>)
    ensures Join(ms + [m]) == Join(ms) + m
    decreases |ms|
  {
    if ms == [] {
      assert ([m])[1..] == [] && m + [] == m && [] + m == m && ms + [m] == [m];
    } else {
      assert (ms + [m])[1..] == ms[1..] + [m];
      JoinSnoc(ms[1..], m);
    }
  }

  // ---- the walk -------------------------------------------------------------------------

  datatype Located = NotSmb2 | BadNextCommand | Last(message: seq<Byte>) | More(message: seq<Byte>)

  function NextCommand(s: seq<Byte>): nat
    requires |s| >= HEADER_LEN
  {
    FromLittle(s[20..24])
  }

  predicate IsMessage(s: seq<Byte>) {
    |s| >= HEADER_LEN && s[..4] == PROTOCOL_ID
  }

  function NextInChain(s: seq<Byte>): (r: Located)
    ensures r.Last? || r.More? ==> IsMessage(r.message) && r.message <= s
    ensures r.More? ==> |r.message| % 8 == 0
  {
    if !IsMessage(s) then NotSmb2
    else
      var next := NextCommand(s);
      if next == 0 then Last(s)
      else if next < HEADER_LEN || next % 8 != 0 || next > |s| then BadNextCommand
      else
        assert s[..next][..4] == s[..4];
        More(s[..next])
  }

  datatype Chain = Chain(messages: seq<seq<Byte>>, complete: bool)

  function Walk(s: seq<Byte>): Chain
    decreases |s|
  {
    match NextInChain(s)
    case Last(m) => Chain([m], true)
    case More(m) => var rest := Walk(s[|m|..]); Chain([m] + rest.messages, rest.complete)
    case _ => Chain([], false)
  }

  /** How many requests the walk looks at. */
  function Steps(s: seq<Byte>): nat
    decreases |s|
  {
    match NextInChain(s)
    case More(m) => 1 + Steps(s[|m|..])
    case _ => 1
  }

  /** On every frame the walk ends within the fuzz target's bound. */
  lemma {:induction false} WalkEnds(s: seq<Byte>)
    ensures Steps(s) <= |s| / HEADER_LEN + 1
    ensures |Walk(s).messages| <= Steps(s)
    decreases |s|
  {
    match NextInChain(s)
    case More(m) =>
      WalkEnds(s[|m|..]);
      assert |s[|m|..]| <= |s| - HEADER_LEN;
    case _ =>
  }

  /** What linking keeps: everything but the NextCommand field. */
  lemma LinkedKeeps(m: seq<Byte>)
    requires IsMessage(m) && Linked(m).Some?
    ensures var l := Linked(m).value;
            && IsMessage(l) && |l| % 8 == 0 && |m| <= |l| < |m| + 8 && NextCommand(l) == |l|
            && l[..20] == m[..20] && l[24..|m|] == m[24..]
            && forall i :: |m| <= i < |l| ==> l[i] == 0
  {
    var p := m + Padding(m);
    var n := LittleEndian(|p|, 4);
    var l := Linked(m).value;
    FourBytes();
    LittleRoundTrip(|p|, 4);
    hide LittleEndian, FromLittle, Pow256, Zeros;
    assert l == p[..20] + n + p[24..];
    Spliced(p, n);
    assert p[..20] == m[..20] && p[24..|m|] == m[24..];
    assert l[..4] == l[..20][..4] == m[..20][..4] == m[..4];
  }

  /** Four bytes put over those from 20 on. */
  lemma Spliced(p: seq<Byte>, n: seq<Byte>)
    requires |p| >= HEADER_LEN && |n| == 4
    ensures var l := p[..20] + n + p[24..];
            |l| == |p| && l[..20] == p[..20] && l[20..24] == n && l[24..] == p[24..]
            && forall i :: 24 <= i < |p| ==> l[i] == p[i] && l[24..i] == p[24..i]
  {
    var l := p[..20] + n + p[24..];
    forall i | 24 <= i < |p| ensures l[i] == p[i] && l[24..i] == p[24..i] {
      assert l[24..][..i - 24] == p[24..][..i - 24];
    }
  }

  /** The fields `smb2_header` is given. */
  datatype Fields = Fields(command: nat, mid: nat, tid: nat, sid: nat, flags: nat, next: nat)

  /** `smb2_header`; `None` if a field does not fit its width. */
  function Header(f: Fields): Option<seq<Byte>> {
    if f.command < 0x1_0000 && f.flags < 0x1_0000_0000 && f.next < 0x1_0000_0000 && f.tid < 0x1_0000_0000
       && f.mid < Pow256(8) && f.sid < Pow256(8)
    then
      Some(PROTOCOL_ID
           + (LittleEndian(64, 2) + LittleEndian(0, 2) + LittleEndian(0, 4)
              + LittleEndian(f.command, 2) + LittleEndian(8, 2) + LittleEndian(f.flags, 4))
           + LittleEndian(f.next, 4)
           + (LittleEndian(f.mid, 8) + LittleEndian(0, 4) + LittleEndian(f.tid, 4) + LittleEndian(f.sid, 8) + Zeros(16)))
    else None
  }

  lemma FourBytes()
    ensures Pow256(4) == 0x1_0000_0000
  {
    assert Pow256(1) == 256 * Pow256(0) && Pow256(2) == 256 * Pow256(1);
    assert Pow256(3) == 256 * Pow256(2) && Pow256(4) == 256 * Pow256(3);
  }

  /** Where each part of a header lies. */
  lemma HeaderParts(f: Fields)
    requires Header(f).Some?
    ensures var h := Header(f).value;
            && |h| == HEADER_LEN && h[..4] == PROTOCOL_ID
            && h[4..6] == LittleEndian(64, 2) && h[6..8] == LittleEndian(0, 2) && h[8..12] == LittleEndian(0, 4)
            && h[12..14] == LittleEndian(f.command, 2) && h[14..16] == LittleEndian(8, 2) && h[16..20] == LittleEndian(f.flags, 4)
            && h[20..24] == LittleEndian(f.next, 4)
            && h[24..32] == LittleEndian(f.mid, 8) && h[32..36] == LittleEndian(0, 4)
            && h[36..40] == LittleEndian(f.tid, 4) && h[40..48] == LittleEndian(f.sid, 8) && h[48..] == Zeros(16)
  {
    hide LittleEndian, Pow256, Zeros;
  }

  /** Each field of a header, read back at the offset the protocol gives it. */
  lemma HeaderFields(f: Fields)
    requires Header(f).Some?
    ensures var h := Header(f).value;
            && |h| == HEADER_LEN && h[..4] == PROTOCOL_ID
            && FromLittle(h[4..6]) == 64 && FromLittle(h[12..14]) == f.command && FromLittle(h[14..16]) == 8
            && FromLittle(h[16..20]) == f.flags && FromLittle(h[20..24]) == f.next
            && FromLittle(h[24..32]) == f.mid && FromLittle(h[36..40]) == f.tid && FromLittle(h[40..48]) == f.sid
            && h[6..12] == Zeros(6) && h[32..36] == Zeros(4) && h[48..] == Zeros(16)
  {
    HeaderParts(f);
    FourBytes();
    ZeroBytes();
    assert f.command < Pow256(2) && 64 < Pow256(2) && 8 < Pow256(2);
    assert f.mid < Pow256(8) && f.sid < Pow256(8);
    assert f.flags < Pow256(4) && f.next < Pow256(4) && f.tid < Pow256(4);
    hide LittleEndian, Pow256, FromLittle, Header, Zeros;
    LittleRoundTrip(64, 2);
    LittleRoundTrip(f.command, 2);
    LittleRoundTrip(8, 2);
    LittleRoundTrip(f.flags, 4);
    LittleRoundTrip(f.next, 4);
    LittleRoundTrip(f.mid, 8);
    LittleRoundTrip(f.tid, 4);
    LittleRoundTrip(f.sid, 8);
    var h := Header(f).value;
    assert h[6..12] == h[6..8] + h[8..12];
  }

  lemma ZeroBytes()
    ensures LittleEndian(0, 2) == Zeros(2) && LittleEndian(0, 4) == Zeros(4)
  {
    assert LittleEndian(0, 1) == [0] && LittleEndian(0, 2) == [0, 0];
    assert LittleEndian(0, 3) == [0, 0, 0] && LittleEndian(0, 4) == [0, 0, 0, 0];
  }

  /** A header with any body is a message, and says where the next one is. */
  lemma HeaderIsMessage(f: Fields, body: seq<Byte>)
    requires Header(f).Some?
    ensures |Header(f).value| == HEADER_LEN && IsMessage(Header(f).value + body)
    ensures NextCommand(Header(f).value + body) == f.next
  {
    FourBytes();
    LittleRoundTrip(f.next, 4);
    hide LittleEndian, Pow256, FromLittle;
    var h := Header(f).value;
    var s := h + body;
    assert h[20..24] == LittleEndian(f.next, 4);
    assert s[20..24] == h[20..24] && s[..4] == PROTOCOL_ID;
  }

  lemma WalkMore(l: seq<Byte>, t: seq<Byte>)
    requires IsMessage(l) && |l| % 8 == 0 && NextCommand(l) == |l|
    ensures Walk(l + t) == Chain([l] + Walk(t).messages, Walk(t).complete)
  {
    var s := l + t;
    assert s[..4] == l[..4] && s[20..24] == l[20..24];
    assert s[..|l|] == l && s[|l|..] == t;
  }

  predicate AllMessages(msgs: seq<seq<Byte>>) {
    forall i :: 0 <= i < |msgs| ==> IsMessage(msgs[i])
  }

  /** The walk visits exactly the given messages if and only if the last one ends the chain. */
  lemma {:induction false} WalkVisits(msgs: seq<seq<Byte>>)
    requires msgs != [] && AllMessages(msgs) && Laid(msgs).Some?
    ensures Walk(Join(Laid(msgs).value)) == Chain(Laid(msgs).value, true) <==> NextCommand(msgs[|msgs| - 1]) == 0
    decreases |msgs|
  {
    if |msgs| == 1 {
      assert Join(msgs) == msgs[0] + [] == msgs[0] by { assert msgs[1..] == []; }
      WalkLast(msgs[0]);
      assert msgs == [msgs[0]];
    } else {
      hide Linked, NextCommand, IsMessage, Walk;
      var l := Linked(msgs[0]).value;
      var rest := Laid(msgs[1..]).value;
      LinkedKeeps(msgs[0]);
      WalkVisits(msgs[1..]);
      assert Laid(msgs).value[1..] == rest;
      WalkMore(l, Join(rest));
      SameTail(l, Walk(Join(rest)).messages, rest);
    }
  }

  lemma SameTail<T>(x: T, a: seq<T>, b: seq<T>)
    ensures [x] + a == [x] + b <==> a == b
  {
    assert ([x] + a)[1..] == a && ([x] + b)[1..] == b;
  }

  lemma WalkLast(m: seq<Byte>)
    requires IsMessage(m)
    ensures Walk(m) == Chain([m], true) <==> NextCommand(m) == 0
  {
    hide FromLittle;
    if NextInChain(m).More? {
      var n := |NextInChain(m).message|;
      var rest := Walk(m[n..]);
      CompleteHasOne(m[n..]);
      assert rest.complete ==> |[m[..n]] + rest.messages| >= 2;
    }
  }

  lemma CompleteHasOne(s: seq<Byte>)
    ensures Walk(s).complete ==> Walk(s).messages != []
  {
  }

  lemma {:induction false} LaidFits(msgs: seq<seq<Byte>>)
    requires AllMessages(msgs) && Laid(msgs).Some?
    ensures |Laid(msgs).value| == |msgs| && |msgs| * HEADER_LEN <= |Join(Laid(msgs).value)|
    decreases |msgs|
  {
    if |msgs| == 1 {
      assert msgs[1..] == [];
    } else if |msgs| > 1 {
      hide Linked;
      LinkedKeeps(msgs[0]);
      LaidFits(msgs[1..]);
      assert Laid(msgs).value[1..] == Laid(msgs[1..]).value;
    }
  }
}
