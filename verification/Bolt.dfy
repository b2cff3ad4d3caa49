/**
 Bolt message chunking (fuzz/seed_corpus.py), and the reader of chunked streams as its
 specification: an empty message is a keep-alive and is dropped.
 */
module Bolt {
  import opened Wrappers
  import opened WireBytes

  const MAX_CHUNK: nat := 65535

  function Piece(body: seq<Byte>): (n: nat)
    ensures n <= |body| && n <= MAX_CHUNK && (body != [] ==> n > 0)
  {
    if |body| < MAX_CHUNK then |body| else MAX_CHUNK
  }

  function Header(n: nat): (s: seq<Byte>)
    ensures |s| == 2
  {
    BigEndian(n, 2)
  }

  /** The chunks of a body, without the end of the message. */
  function Chunks(body: seq<Byte>): seq<Byte>
    decreases |body|
  {
    if body == [] then []
    else
      var n := Piece(body);
      Header(n) + body[..n] + Chunks(body[n..])
  }

  method BoltChunk(body: seq<Byte>) returns (out: seq<Byte>)
    ensures out == Chunks(body) + [0, 0]
  {
    out := [];
    var i := 0;
    assert body[0..] == body && [] + Chunks(body) == Chunks(body);
    while i < |body|
      invariant i <= |body| && out + Chunks(body[i..]) == Chunks(body)
    {
      var end := if i + MAX_CHUNK < |body| then i + MAX_CHUNK else |body|;
      var piece := body[i..end];
      ghost var tail := body[i..];
      assert tail[..Piece(tail)] == piece && tail[Piece(tail)..] == body[end..];
      assert out + (Header(|piece|) + piece + Chunks(body[end..])) == out + (Header(|piece|) + piece) + Chunks(body[end..]);
      out := out + (Header(|piece|) + piece);
      i := end;
    }
    assert body[i..] == [] && out + [] == out;
    out := out + [0, 0];
  }

  /** The messages of a stream, `open` being what has come of the current one. */
  function Dechunk(s: seq<Byte>, open: seq<Byte>): Option<seq<seq<Byte>>>
    decreases |s|
  {
    if s == [] then (if open == [] then Some([]) else None)
    else if |s| < 2 then None
    else
      var n := FromBig(s[..2]);
      if |s| < 2 + n then None
      else if n > 0 then Dechunk(s[2 + n..], open + s[2..2 + n])
      else Cons(open, Dechunk(s[2..], []))
  }

  function Cons(message: seq<Byte>, rest: Option<seq<seq<Byte>>>): Option<seq<seq<Byte>>> {
    if message == [] || rest == None then rest else Some([message] + rest.value)
  }

  function Stream(bodies: seq<seq<Byte>>): seq<Byte> {
    if bodies == [] then [] else Chunks(bodies[0]) + [0, 0] + Stream(bodies[1..])
  }

  function Messages(bodies: seq<seq<Byte>>): seq<seq<Byte>> {
    if bodies == [] then []
    else (if bodies[0] == [] then [] else [bodies[0]]) + Messages(bodies[1..])
  }

  lemma HeaderReads(n: nat)
    requires n <= MAX_CHUNK
    ensures FromBig(Header(n)) == n
  {
    assert Pow256(1) == 256 * Pow256(0) && Pow256(2) == 256 * Pow256(1);
    BigRoundTrip(n, 2);
  }

  lemma DechunkPiece(piece: seq<Byte>, t: seq<Byte>, open: seq<Byte>)
    requires 0 < |piece| <= MAX_CHUNK
    ensures Dechunk(Header(|piece|) + piece + t, open) == Dechunk(t, open + piece)
  {
    hide Header;
    HeaderReads(|piece|);
    var s := Header(|piece|) + piece + t;
    assert s[..2] == Header(|piece|) && s[2..2 + |piece|] == piece && s[2 + |piece|..] == t;
  }

  lemma DechunkEnd(t: seq<Byte>, open: seq<Byte>)
    ensures Dechunk([0, 0] + t, open) == Cons(open, Dechunk(t, []))
  {
    var s := [0, 0] + t;
    assert s[..2] == [0, 0] && s[2..] == t;
    assert FromBig([0, 0]) == 0 by {
      assert [0, 0][..1] == [0] && [0][..0] == [];
    }
  }

  lemma {:induction false} DechunkBody(body: seq<Byte>, t: seq<Byte>, open: seq<Byte>)
    ensures Dechunk(Chunks(body) + [0, 0] + t, open) == Cons(open + body, Dechunk(t, []))
    decreases |body|
  {
    hide Dechunk, Header;
    if body == [] {
      assert Chunks(body) + [0, 0] + t == [0, 0] + t && open + body == open;
      DechunkEnd(t, open);
    } else {
      var n := Piece(body);
      var rest := Chunks(body[n..]) + [0, 0] + t;
      assert Chunks(body) + [0, 0] + t == Header(n) + body[..n] + rest;
      DechunkPiece(body[..n], rest, open);
      DechunkBody(body[n..], t, open + body[..n]);
      assert open + body[..n] + body[n..] == open + body;
    }
  }

  /** Every sequence of bodies comes back, less the empty ones. */
  lemma {:induction false} StreamReads(bodies: seq<seq<Byte>>)
    ensures Dechunk(Stream(bodies), []) == Some(Messages(bodies))
    decreases |bodies|
  {
    if bodies != [] {
      hide Chunks;
      var body := bodies[0];
      DechunkBody(body, Stream(bodies[1..]), []);
      assert [] + body == body;
      StreamReads(bodies[1..]);
      assert [] + Messages(bodies[1..]) == Messages(bodies[1..]);
    }
  }

  lemma {:induction false} NonEmptyMessages(bodies: seq<seq<Byte>>)
    requires forall i :: 0 <= i < |bodies| ==> bodies[i] != []
    ensures Messages(bodies) == bodies
    decreases |bodies|
  {
    if bodies != [] {
      NonEmptyMessages(bodies[1..]);
    }
  }
}
