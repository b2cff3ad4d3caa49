/**
 The line-mode Telnet decoder (site/js/telnet.js): commands taken out and answered, text
 decoded and its line ends normalised, whatever the chunks the stream arrives in.
 */
module Telnet {
  import opened Utf8
  import TD = TextDecoder

  const IAC: Byte := 255
  const DONT: Byte := 254
  const DO: Byte := 253
  const WONT: Byte := 252
  const WILL: Byte := 251
  const SB: Byte := 250
  const SE: Byte := 240

  datatype Mode = Data | Command | Option | Subnegotiation | SubnegotiationCommand

  datatype Line = Line(mode: Mode, option: Byte)

  datatype Scanned = Scanned(line: Line, data: seq<Byte>, replies: seq<Byte>)

  predicate IsVerb(b: Byte) {
    b == DO || b == DONT || b == WILL || b == WONT
  }

  /** What is answered to a negotiation. */
  function Refusal(verb: Byte, option: Byte): seq<Byte> {
    if verb == WILL then [IAC, DONT, option] else if verb == DO then [IAC, WONT, option] else []
  }

  function Step(l: Line, b: Byte): Scanned {
    match l.mode
    case Data => if b == IAC then Scanned(l.(mode := Command), [], []) else Scanned(l, [b], [])
    case Command =>
      if b == SB then Scanned(l.(mode := Subnegotiation), [], [])
      else if IsVerb(b) then Scanned(Line(Option, b), [], [])
      else Scanned(l.(mode := Data), if b == IAC then [IAC] else [], [])
    case Option => Scanned(l.(mode := Data), [], Refusal(l.option, b))
    case Subnegotiation => Scanned(if b == IAC then l.(mode := SubnegotiationCommand) else l, [], [])
    case SubnegotiationCommand => Scanned(l.(mode := if b == SE then Data else Subnegotiation), [], [])
  }

  function Scan(l: Line, s: seq<Byte>): Scanned
    decreases |s|
  {
    if s == [] then Scanned(l, [], [])
    else
      var first := Step(l, s[0]);
      var rest := Scan(first.line, s[1..]);
      Scanned(rest.line, first.data + rest.data, first.replies + rest.replies)
  }

  lemma {:induction false} ScanConcat(l: Line, s: seq<Byte>, t: seq<Byte>)
    ensures var a := Scan(l, s);
            var b := Scan(a.line, t);
            Scan(l, s + t) == Scanned(b.line, a.data + b.data, a.replies + b.replies)
    decreases |s|
  {
    hide Step;
    if s == [] {
      assert s + t == t;
      Whole(Scan(l, t).data);
      Whole(Scan(l, t).replies);
    } else {
      assert (s + t)[1..] == s[1..] + t;
      var first := Step(l, s[0]);
      ScanConcat(first.line, s[1..], t);
      var a := Scan(first.line, s[1..]);
      var b := Scan(a.line, t);
      Assoc(first.data, a.data, b.data);
      Assoc(first.replies, a.replies, b.replies);
    }
  }

  lemma Whole<T>(s: seq<T>)
    ensures [] + s == s && s + [] == s
  {
  }

  lemma Assoc<T>(a: seq<T>, b: seq<T>, c: seq<T>)
    ensures a + b + c == a + (b + c)
  {
  }

  // ---- well-formed streams --------------------------------------------------------------

  /** A byte of data, or a command ("TELNET COMMAND STRUCTURE" in RFC 854, and RFC 855). */
  datatype Item = Plain(b: Byte) | Simple(command: Byte) | Negotiate(verb: Byte, option: Byte) | Parameters(payload: seq<Byte>)

  predicate WellFormed(i: Item) {
    match i
    case Simple(c) => c != IAC && c != SB && !IsVerb(c)
    case Negotiate(v, o) => IsVerb(v)
    case _ => true
  }

  function Escape(s: seq<Byte>): seq<Byte> {
    if s == [] then [] else (if s[0] == IAC then [IAC, IAC] else [s[0]]) + Escape(s[1..])
  }

  function Wire(i: Item): seq<Byte> {
    match i
    case Plain(b) => Escape([b])
    case Simple(c) => [IAC, c]
    case Negotiate(v, o) => [IAC, v, o]
    case Parameters(p) => [IAC, SB] + Escape(p) + [IAC, SE]
  }

  function Stream(items: seq<Item>): seq<Byte> {
    if items == [] then [] else Wire(items[0]) + Stream(items[1..])
  }

  /** The data in a stream, without its commands. */
  function Payload(items: seq<Item>): seq<Byte> {
    if items == [] then []
    else (if items[0].Plain? then [items[0].b] else []) + Payload(items[1..])
  }

  /** DONT for every WILL and WONT for every DO, in order. */
  function Refusals(items: seq<Item>): seq<Byte> {
    if items == [] then []
    else
      (match items[0]
       case Negotiate(verb, option) =>
         if verb == WILL then [IAC, DONT, option] else if verb == DO then [IAC, WONT, option] else []
       case _ => []) + Refusals(items[1..])
  }

  lemma ScanOne(l: Line, b: Byte, t: seq<Byte>)
    ensures var first := Step(l, b);
            var rest := Scan(first.line, t);
            Scan(l, [b] + t) == Scanned(rest.line, first.data + rest.data, first.replies + rest.replies)
  {
    assert ([b] + t)[1..] == t;
  }

  /** A byte that gives neither data nor an answer. */
  lemma ScanQuiet(l: Line, b: Byte, t: seq<Byte>)
    requires Step(l, b).data == [] && Step(l, b).replies == []
    ensures Scan(l, [b] + t) == Scan(Step(l, b).line, t)
  {
    hide Step;
    ScanOne(l, b, t);
    Whole(Scan(Step(l, b).line, t).data);
    Whole(Scan(Step(l, b).line, t).replies);
  }

  lemma ScanLast(l: Line, b: Byte)
    ensures Scan(l, [b]) == Step(l, b)
  {
    hide Step;
    assert [b] == [b] + [];
    ScanOne(l, b, []);
    Whole(Step(l, b).data);
    Whole(Step(l, b).replies);
  }

  lemma {:induction false} ScanParameters(l: Line, p: seq<Byte>)
    requires l.mode == Subnegotiation
    ensures Scan(l, Escape(p) + [IAC, SE]) == Scanned(l.(mode := Data), [], [])
    decreases |p|
  {
    hide Scan;
    if p == [] {
      assert Escape(p) + [IAC, SE] == [IAC] + [SE];
      ScanQuiet(l, IAC, [SE]);
      ScanLast(l.(mode := SubnegotiationCommand), SE);
    } else {
      var rest := Escape(p[1..]) + [IAC, SE];
      ScanParameters(l, p[1..]);
      if p[0] == IAC {
        assert Escape(p) + [IAC, SE] == [IAC] + ([IAC] + rest);
        ScanQuiet(l, IAC, [IAC] + rest);
        ScanQuiet(l.(mode := SubnegotiationCommand), IAC, rest);
      } else {
        assert Escape(p) + [IAC, SE] == [p[0]] + rest;
        ScanQuiet(l, p[0], rest);
      }
    }
  }

  lemma EscapeOne(b: Byte)
    ensures Escape([b]) == if b == IAC then [IAC, IAC] else [b]
  {
    assert [b][1..] == [];
    Whole(if b == IAC then [IAC, IAC] else [b]);
  }

  lemma ScanItem(l: Line, i: Item)
    requires l.mode == Data && WellFormed(i)
    ensures var r := Scan(l, Wire(i));
            && r.line.mode == Data
            && r.data == (if i.Plain? then [i.b] else [])
            && r.replies == (if i.Negotiate? then Refusal(i.verb, i.option) else [])
  {
    hide Scan, Escape;
    var c := l.(mode := Command);
    match i
    case Plain(b) =>
      EscapeOne(b);
      if b == IAC {
        assert Wire(i) == [IAC] + [IAC];
        ScanQuiet(l, IAC, [IAC]);
        ScanLast(c, IAC);
      } else {
        ScanLast(l, b);
      }
    case Simple(b) =>
      assert Wire(i) == [IAC] + [b];
      ScanQuiet(l, IAC, [b]);
      ScanLast(c, b);
    case Negotiate(v, o) =>
      assert Wire(i) == [IAC] + ([v] + [o]);
      ScanQuiet(l, IAC, [v] + [o]);
      ScanQuiet(c, v, [o]);
      ScanLast(Line(Option, v), o);
    case Parameters(p) =>
      assert Wire(i) == [IAC] + ([SB] + (Escape(p) + [IAC, SE]));
      ScanQuiet(l, IAC, [SB] + (Escape(p) + [IAC, SE]));
      ScanQuiet(c, SB, Escape(p) + [IAC, SE]);
      ScanParameters(l.(mode := Subnegotiation), p);
  }

  /** A well-formed stream gives back its data, and each offer and request its refusal. */
  lemma {:induction false} ScanStream(l: Line, items: seq<Item>)
    requires l.mode == Data && forall i :: 0 <= i < |items| ==> WellFormed(items[i])
    ensures var r := Scan(l, Stream(items));
            r.line.mode == Data && r.data == Payload(items) && r.replies == Refusals(items)
    decreases |items|
  {
    hide WellFormed, Wire, Scan;
    if items == [] {
      ScanEmpty(l);
    } else {
      ScanItem(l, items[0]);
      var first := Scan(l, Wire(items[0]));
      ScanStream(first.line, items[1..]);
      ScanConcat(l, Wire(items[0]), Stream(items[1..]));
    }
  }

  lemma ScanEmpty(l: Line)
    ensures Scan(l, []) == Scanned(l, [], [])
  {
  }

  // ---- answers --------------------------------------------------------------------------

  /** Sequences of refusals, three bytes each. */
  predicate OnlyRefusals(r: seq<Byte>)
    decreases |r|
  {
    r == [] || (|r| >= 3 && r[0] == IAC && (r[1] == DONT || r[1] == WONT) && OnlyRefusals(r[3..]))
  }

  lemma {:induction false} RefusalsConcat(a: seq<Byte>, b: seq<Byte>)
    requires OnlyRefusals(a) && OnlyRefusals(b)
    ensures OnlyRefusals(a + b)
    decreases |a|
  {
    if a == [] {
      assert a + b == b;
    } else {
      assert (a + b)[3..] == a[3..] + b;
      RefusalsConcat(a[3..], b);
    }
  }

  /** Whatever comes in, only refusals go out. */
  lemma {:induction false} AnswersAreRefusals(l: Line, s: seq<Byte>)
    ensures OnlyRefusals(Scan(l, s).replies)
    decreases |s|
  {
    if s != [] {
      var first := Step(l, s[0]);
      AnswersAreRefusals(first.line, s[1..]);
      var r := Refusal(l.option, s[0]);
      assert r == [] || r[3..] == [];
      assert OnlyRefusals(r);
      RefusalsConcat(first.replies, Scan(first.line, s[1..]).replies);
    }
  }

  /** Answers are never answered: there is no negotiation loop. */
  lemma {:induction false} RefusalsAreQuiet(l: Line, r: seq<Byte>)
    requires l.mode == Data && OnlyRefusals(r)
    ensures var o := Scan(l, r); o.line.mode == Data && o.data == [] && o.replies == []
    decreases |r|
  {
    if r != [] {
      hide Scan, OnlyRefusals;
      UnfoldRefusals(r);
      var rest := r[3..];
      assert r == [IAC] + ([r[1]] + ([r[2]] + rest));
      ScanQuiet(l, IAC, [r[1]] + ([r[2]] + rest));
      ScanQuiet(l.(mode := Command), r[1], [r[2]] + rest);
      ScanQuiet(Line(Option, r[1]), r[2], rest);
      RefusalsAreQuiet(Line(Data, r[1]), rest);
    }
  }

  lemma UnfoldRefusals(r: seq<Byte>)
    requires r != [] && OnlyRefusals(r)
    ensures |r| >= 3 && r[0] == IAC && (r[1] == DONT || r[1] == WONT) && OnlyRefusals(r[3..])
  {
  }

  lemma NoLoop(l: Line, s: seq<Byte>, peer: Line)
    requires peer.mode == Data
    ensures Scan(peer, Scan(l, s).replies).replies == []
  {
    AnswersAreRefusals(l, s);
    RefusalsAreQuiet(peer, Scan(l, s).replies);
  }

  // ---- line ends ------------------------------------------------------------------------

  const CR: Scalar := 13
  const LF: Scalar := 10

  /** Text with a carriage return put before every line feed that has none. */
  function Normal(cr: bool, cs: seq<Scalar>): seq<Scalar>
    decreases |cs|
  {
    if cs == [] then []
    else (if cs[0] == LF && !cr then [CR, LF] else [cs[0]]) + Normal(cs[0] == CR, cs[1..])
  }

  /** Whether the text so far ends in a carriage return. */
  function EndsInCR(cr: bool, cs: seq<Scalar>): bool {
    if cs == [] then cr else cs[|cs| - 1] == CR
  }

  lemma {:induction false} NormalConcat(cr: bool, a: seq<Scalar>, b: seq<Scalar>)
    ensures Normal(cr, a + b) == Normal(cr, a) + Normal(EndsInCR(cr, a), b)
    ensures EndsInCR(cr, a + b) == EndsInCR(EndsInCR(cr, a), b)
    decreases |a|
  {
    if a == [] {
      assert a + b == b;
    } else {
      assert (a + b)[1..] == a[1..] + b;
      NormalConcat(a[0] == CR, a[1..], b);
      Assoc(if a[0] == LF && !cr then [CR, LF] else [a[0]], Normal(a[0] == CR, a[1..]), Normal(EndsInCR(cr, a), b));
    }
  }

  predicate FollowsCR(cr: bool, cs: seq<Scalar>, i: nat)
    requires i < |cs|
  {
    if i == 0 then cr else cs[i - 1] == CR
  }

  /** Every line feed has a carriage return before it. */
  predicate Lines(cr: bool, cs: seq<Scalar>) {
    forall i :: 0 <= i < |cs| && cs[i] == LF ==> FollowsCR(cr, cs, i)
  }

  lemma {:induction false} NormalIsLines(cr: bool, cs: seq<Scalar>)
    ensures Lines(cr, Normal(cr, cs))
    decreases |cs|
  {
    if cs != [] {
      var rest := Normal(cs[0] == CR, cs[1..]);
      NormalIsLines(cs[0] == CR, cs[1..]);
      var first := if cs[0] == LF && !cr then [CR, LF] else [cs[0]];
      var n := |first|;
      forall i | 0 <= i < |first + rest| && (first + rest)[i] == LF
        ensures FollowsCR(cr, first + rest, i)
      {
        assert i >= n ==> rest[i - n] == LF && FollowsCR(cs[0] == CR, rest, i - n);
        assert i > n ==> (first + rest)[i - 1] == rest[i - 1 - n];
      }
    }
  }

  /** Line ends with their carriage returns taken away. */
  function Unix(cs: seq<Scalar>): seq<Scalar> {
    if cs == [] then []
    else if cs[0] == CR && |cs| > 1 && cs[1] == LF then Unix(cs[1..])
    else [cs[0]] + Unix(cs[1..])
  }

  /** Text that already has its carriage returns is left alone. */
  lemma {:induction false} LinesAreNormal(cr: bool, cs: seq<Scalar>)
    requires Lines(cr, cs)
    ensures Normal(cr, cs) == cs
    decreases |cs|
  {
    if cs != [] {
      forall i | 0 <= i < |cs[1..]| && cs[1..][i] == LF
        ensures FollowsCR(cs[0] == CR, cs[1..], i)
      {
        assert FollowsCR(cr, cs, i + 1);
      }
      LinesAreNormal(cs[0] == CR, cs[1..]);
      assert cs[0] == LF ==> FollowsCR(cr, cs, 0);
      assert cs == [cs[0]] + cs[1..];
    }
  }

  /** Only carriage returns before line feeds are added: the lines stay the same. */
  lemma {:induction false} NormalKeepsLines(cr: bool, cs: seq<Scalar>)
    ensures !cr || cs == [] || cs[0] != LF ==> Unix(Normal(cr, cs)) == Unix(cs)
    ensures Unix([CR] + Normal(true, cs)) == Unix([CR] + cs)
    decreases |cs|
  {
    if cs != [] {
      NormalKeepsLines(cs[0] == CR, cs[1..]);
      var rest := Normal(cs[0] == CR, cs[1..]);
      assert cs == [cs[0]] + cs[1..];
    }
  }

  // ---- a connection ---------------------------------------------------------------------

  datatype Conn = Conn(line: Line, decoder: TD.Decoder, previousCR: bool)

  const Start := Conn(Line(Data, 0), TD.Fresh(false), false)

  datatype Pushed = Pushed(conn: Conn, text: seq<Scalar>, replies: seq<Byte>)

  function Receive(c: Conn, bytes: seq<Byte>): Pushed {
    var scanned := Scan(c.line, bytes);
    var (decoder, text) := TD.Decode(c.decoder, scanned.data);
    Pushed(Conn(scanned.line, decoder, EndsInCR(c.previousCR, text)), Normal(c.previousCR, text), scanned.replies)
  }

  lemma PushConcat(c: Conn, s: seq<Byte>, t: seq<Byte>)
    ensures var a := Receive(c, s);
            var b := Receive(a.conn, t);
            Receive(c, s + t) == Pushed(b.conn, a.text + b.text, a.replies + b.replies)
  {
    hide Scan, TD.Decode, Normal, EndsInCR;
    ScanConcat(c.line, s, t);
    var x := Scan(c.line, s);
    var y := Scan(x.line, t);
    TD.DecodeConcat(c.decoder, x.data, y.data);
    var (d, text) := TD.Decode(c.decoder, x.data);
    NormalConcat(c.previousCR, text, TD.Decode(d, y.data).1);
  }

  function Flatten(chunks: seq<seq<Byte>>): seq<Byte> {
    if chunks == [] then [] else chunks[0] + Flatten(chunks[1..])
  }

  function ReceiveAll(c: Conn, chunks: seq<seq<Byte>>): Pushed
    decreases |chunks|
  {
    if chunks == [] then Pushed(c, [], [])
    else
      var first := Receive(c, chunks[0]);
      var rest := ReceiveAll(first.conn, chunks[1..]);
      Pushed(rest.conn, first.text + rest.text, first.replies + rest.replies)
  }

  /** However the stream is cut, the connection, its text and its answers are the same. */
  lemma {:induction false} ChunksDoNotMatter(c: Conn, chunks: seq<seq<Byte>>)
    ensures ReceiveAll(c, chunks) == Receive(c, Flatten(chunks))
    decreases |chunks|
  {
    if chunks == [] {
      PushNothing(c);
    } else {
      hide Receive;
      ChunksDoNotMatter(Receive(c, chunks[0]).conn, chunks[1..]);
      PushConcat(c, chunks[0], Flatten(chunks[1..]));
    }
  }

  lemma PushNothing(c: Conn)
    ensures Receive(c, []) == Pushed(c, [], [])
  {
  }

  /** All text ever shown has a carriage return before each line feed. */
  lemma AllTextIsLines(chunks: seq<seq<Byte>>)
    ensures Lines(false, ReceiveAll(Start, chunks).text)
  {
    ChunksDoNotMatter(Start, chunks);
    NormalIsLines(false, TD.Decode(Start.decoder, Scan(Start.line, Flatten(chunks)).data).1);
  }

  /**
   Text sent as UTF-8 with its IAC bytes doubled and any commands in between, in any chunks,
   is shown as that text with its line ends normalised; every WILL and DO is refused in order.
   */
  lemma TextArrives(cs: seq<Scalar>, items: seq<Item>, chunks: seq<seq<Byte>>)
    requires forall i :: 0 <= i < |items| ==> WellFormed(items[i])
    requires Payload(items) == Bytes(cs) && Flatten(chunks) == Stream(items)
    ensures var r := ReceiveAll(Start, chunks);
            && r.text == Normal(false, TD.Passed(false, cs))
            && r.replies == Refusals(items)
            && r.conn.line.mode == Data && TD.Flush(r.conn.decoder) == []
  {
    hide Scan, TD.Decode, Normal, EndsInCR;
    ChunksDoNotMatter(Start, chunks);
    ScanStream(Start.line, items);
    TD.DecodeText(false, cs);
  }

  class TelnetDecoder {
    var mode: Mode
    var optionCommand: Byte
    var decoder: TD.Decoder
    var previousCR: bool

    function State(): Conn
      reads this
    {
      Conn(Line(mode, optionCommand), decoder, previousCR)
    }

    constructor ()
      ensures State() == Start
    {
      mode, optionCommand, decoder, previousCR := Data, 0, TD.Fresh(false), false;
    }

    method Push(bytes: seq<Byte>) returns (text: seq<Scalar>, replies: seq<Byte>)
      modifies this
      ensures Pushed(State(), text, replies) == Receive(old(State()), bytes)
    {
      var data: seq<Byte> := [];
      replies := [];
      ghost var start := Line(mode, optionCommand);
      ScanEmpty(start);
      assert bytes[..0] == [];
      for i := 0 to |bytes|
        invariant Scanned(Line(mode, optionCommand), data, replies) == Scan(start, bytes[..i])
        invariant decoder == old(decoder) && previousCR == old(previousCR)
      {
        hide Scan;
        ScanSnoc(start, bytes[..i], bytes[i]);
        assert bytes[..i + 1] == bytes[..i] + [bytes[i]];
        var byte := bytes[i];
        match mode {
          case Data =>
            if byte == IAC { mode := Command; } else { data := data + [byte]; }
          case Command =>
            if byte == SB {
              mode := Subnegotiation;
            } else if IsVerb(byte) {
              optionCommand := byte;
              mode := Option;
            } else {
              if byte == IAC { data := data + [IAC]; }
              mode := Data;
            }
          case Option =>
            if optionCommand == WILL {
              replies := replies + [IAC, DONT, byte];
            } else if optionCommand == DO {
              replies := replies + [IAC, WONT, byte];
            }
            mode := Data;
          case Subnegotiation =>
            if byte == IAC { mode := SubnegotiationCommand; }
          case SubnegotiationCommand =>
            mode := if byte == SE then Data else Subnegotiation;
        }
      }
      assert bytes[..|bytes|] == bytes;
      var decoded := TD.Decode(decoder, data);
      decoder := decoded.0;
      text := Normalize(decoded.1);
    }

    method Finish() returns (text: seq<Scalar>)
      modifies this`previousCR, this`decoder
      ensures text == Normal(old(previousCR), TD.Flush(old(decoder)))
      ensures State() == Conn(Line(mode, optionCommand), TD.Fresh(false), EndsInCR(old(previousCR), TD.Flush(old(decoder))))
    {
      var last := TD.Flush(decoder);
      decoder := TD.Fresh(false);
      text := Normalize(last);
    }

    method Normalize(text: seq<Scalar>) returns (result: seq<Scalar>)
      modifies this`previousCR
      ensures result == Normal(old(previousCR), text)
      ensures previousCR == EndsInCR(old(previousCR), text)
    {
      result := [];
      ghost var cr := previousCR;
      assert text[..0] == [];
      for i := 0 to |text|
        invariant result == Normal(cr, text[..i]) && previousCR == EndsInCR(cr, text[..i])
      {
        var c := text[i];
        NormalConcat(cr, text[..i], [c]);
        assert text[..i + 1] == text[..i] + [c];
        NormalOne(previousCR, c);
        if c == LF && !previousCR {
          result := result + [CR];
        }
        result := result + [c];
        previousCR := c == CR;
      }
      assert text[..|text|] == text;
    }
  }

  lemma ScanSnoc(l: Line, s: seq<Byte>, b: Byte)
    ensures var a := Scan(l, s);
            var z := Step(a.line, b);
            Scan(l, s + [b]) == Scanned(z.line, a.data + z.data, a.replies + z.replies)
  {
    hide Step, Scan;
    ScanConcat(l, s, [b]);
    ScanLast(Scan(l, s).line, b);
  }

  lemma NormalOne(cr: bool, c: Scalar)
    ensures Normal(cr, [c]) == (if c == LF && !cr then [CR] + [c] else [c])
  {
    assert [c][1..] == [];
  }
}
