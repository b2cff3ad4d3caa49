/**
 The recursive-descent parser of `scripts/h323_asn1_schema.py` for type expressions, as a
 function from the tokens still to be read to a type tree and the tokens left over.
 */
module Asn1Parse {
  import opened Wrappers
  import opened Asn1Types

  /** A token; `Word` is any identifier the parser gives no meaning of its own to. */
  datatype Token =
    | SEQUENCE | SET | OF | SIZE | FROM | CHOICE | ENUMERATED | INTEGER | BOOLEAN | NULL
    | OBJECT | IDENTIFIER | OCTET | BIT | STRING | TYPE_IDENTIFIER | OPTIONAL | DEFAULT | WITH | MIN | MAX
    | CharString(kind: CharKind)
    | LBrace | RBrace | LParen | RParen | LVersion
    | Comma | Ellipsis | DotDot | Dot | Ampersand | Caret | Bar
    | Word(text: string)
    | Num(text: string)
    | Quoted(text: string)
    | Sym(text: string)

  /** The characters of a token. */
  function Spelling(tok: Token): string {
    match tok
    case SEQUENCE => "SEQUENCE" case SET => "SET" case OF => "OF" case SIZE => "SIZE" case FROM => "FROM"
    case CHOICE => "CHOICE" case ENUMERATED => "ENUMERATED" case INTEGER => "INTEGER" case BOOLEAN => "BOOLEAN"
    case NULL => "NULL" case OBJECT => "OBJECT" case IDENTIFIER => "IDENTIFIER" case OCTET => "OCTET"
    case BIT => "BIT" case STRING => "STRING" case TYPE_IDENTIFIER => "TYPE-IDENTIFIER"
    case OPTIONAL => "OPTIONAL" case DEFAULT => "DEFAULT" case WITH => "WITH" case MIN => "MIN" case MAX => "MAX"
    case CharString(Ia5) => "IA5String" case CharString(Bmp) => "BMPString"
    case CharString(Numeric) => "NumericString" case CharString(Printable) => "PrintableString"
    case CharString(General) => "GeneralString"
    case LBrace => "{" case RBrace => "}" case LParen => "(" case RParen => ")" case LVersion => "[["
    case Comma => "," case Ellipsis => "..." case DotDot => ".." case Dot => "." case Ampersand => "&"
    case Caret => "^" case Bar => "|"
    case Word(text) => text
    case Num(text) => text
    case Quoted(text) => "\"" + text + "\""
    case Sym(text) => text
  }

  predicate IsUpper(tok: Token) {
    match tok
    case Word(text) => |text| > 0 && 'A' <= text[0] <= 'Z'
    case Num(_) => false
    case Quoted(_) => false
    case Sym(_) => false
    case _ => !(tok.LBrace? || tok.RBrace? || tok.LParen? || tok.RParen? || tok.LVersion? || tok.Comma?
                || tok.Ellipsis? || tok.DotDot? || tok.Dot? || tok.Ampersand? || tok.Caret? || tok.Bar?)
  }

  predicate IsLower(tok: Token) {
    tok.Word? && |tok.text| > 0 && 'a' <= tok.text[0] <= 'z'
  }

  // ---- numbers --------------------------------------------------------------------------

  function DigitOf(c: char): Option<nat> {
    if '0' <= c <= '9' then Some((c - '0') as nat) else None
  }

  function NatOf(s: string): Option<nat> {
    if |s| == 0 then None
    else if |s| == 1 then DigitOf(s[0])
    else
      match (NatOf(s[..|s| - 1]), DigitOf(s[|s| - 1]))
      case (Some(n), Some(d)) => Some(10 * n + d)
      case _ => None
  }

  function IntOf(s: string): Option<int> {
    if |s| > 0 && s[0] == '-' then
      match NatOf(s[1..]) case Some(n) => Some(0 - n) case None => None
    else
      match NatOf(s) case Some(n) => Some(n) case None => None
  }

  // ---- the parser -----------------------------------------------------------------------

  type Tokens = seq<Token>

  /** What was read, and the position just past it. */
  type Parsed<T> = Result<(T, nat), Fault>

  /** Something was read, up to a position still within the tokens. */
  predicate Advances<T>(ts: Tokens, i: nat, r: Parsed<T>) {
    r.Success? ==> i < r.value.1 <= |ts|
  }

  /** The token at `i` is `tok`. */
  predicate Next<T(==)>(ts: seq<T>, i: nat, tok: T) {
    i < |ts| && ts[i] == tok
  }

  function Expect(ts: Tokens, i: nat, tok: Token): (r: Result<nat, Fault>)
    ensures if Next(ts, i, tok) then r == Success(i + 1) else r == Failure(Syntax)
  {
    if Next(ts, i, tok) then Success(i + 1) else Failure(Syntax)
  }

  /** Skip to just past the `close` that matches the first `open`. */
  function SkipBalanced<T(==)>(ts: seq<T>, i: nat, open: T, close: T, depth: int): (r: Result<nat, Fault>)
    requires i <= |ts|
    ensures r.Success? ==> i < r.value <= |ts|
    decreases |ts| - i
  {
    if i == |ts| then Failure(Syntax)
    else if ts[i] == open then SkipBalanced(ts, i + 1, open, close, depth + 1)
    else if ts[i] == close then
      if depth == 1 then Success(i + 1) else SkipBalanced(ts, i + 1, open, close, depth - 1)
    else SkipBalanced(ts, i + 1, open, close, depth)
  }

  /** Skip to, not past, the bracket that closes the current constraint. */
  function SkipToClose(ts: Tokens, i: nat, depth: nat): (r: Result<nat, Fault>)
    requires i <= |ts|
    ensures r.Success? ==> i <= r.value < |ts|
    decreases |ts| - i
  {
    if i == |ts| then Failure(Syntax)
    else if ts[i] == LParen || ts[i] == LBrace then SkipToClose(ts, i + 1, depth + 1)
    else if ts[i] == RParen || ts[i] == RBrace then
      if depth == 0 then Success(i) else SkipToClose(ts, i + 1, depth - 1)
    else SkipToClose(ts, i + 1, depth)
  }

  function Value(ts: Tokens, i: nat): (r: Parsed<Option<int>>)
    ensures Advances(ts, i, r)
  {
    if i >= |ts| then Failure(Syntax)
    else if ts[i] == MIN || ts[i] == MAX then Success((None, i + 1))
    else
      var n := IntOf(Spelling(ts[i]));
      if n.Some? then Success((n, i + 1)) else Failure(Syntax)
  }

  const NOTHING := Constraint(None, None, None)

  /** What two intersected constraints say; the later one wins. */
  function Merge(a: Constraint, b: Constraint): Constraint {
    Constraint(if b.value.Some? then b.value else a.value,
               if b.size.Some? then b.size else a.size,
               if b.alphabet.Some? then b.alphabet else a.alphabet)
  }

  function Loosen(c: Constraint): Constraint {
    Constraint(if c.value.Some? then Some(c.value.value.(ext := true)) else None,
               if c.size.Some? && c.size.value.Some? then Some(Some(c.size.value.value.(ext := true))) else c.size,
               c.alphabet)
  }

  /** `(lb..ub)` or `(value)`, without the parentheses. */
  function ValueRange(ts: Tokens, i: nat): (r: Parsed<Constraint>)
    ensures Advances(ts, i, r)
  {
    var (lb, j) :- Value(ts, i);
    if Next(ts, j, DotDot) then
      var (ub, k) :- Value(ts, j + 1);
      Success((Constraint(Some(Bounds(lb, ub, false)), None, None), k))
    else Success((Constraint(Some(Bounds(lb, lb, false)), None, None), j))
  }

  /** `FROM ("...")` after its keyword. */
  function Alphabet(ts: Tokens, i: nat): (r: Parsed<Constraint>)
    ensures Advances(ts, i, r)
  {
    var j :- Expect(ts, i, LParen);
    if j >= |ts| then Failure(Syntax) else
      var k :- Expect(ts, j + 1, RParen);
      Success((Constraint(None, None, Some(if ts[j].Quoted? then ts[j].text else Spelling(ts[j]))), k))
  }

  function Element(ts: Tokens, i: nat): (r: Parsed<Constraint>)
    requires i <= |ts|
    ensures Advances(ts, i, r)
    decreases |ts| - i, 1
  {
    if i == |ts| then Failure(Syntax)
    else if ts[i] == SIZE then
      var (c, j) :- Parenthesised(ts, i + 1);
      Success((Constraint(None, Some(c.value), None), j))
    else if ts[i] == FROM then Alphabet(ts, i + 1)
    else if ts[i] == LParen then Parenthesised(ts, i)
    else if IsUpper(ts[i]) && ts[i] != MIN && ts[i] != MAX then
      var j :- SkipToClose(ts, i + 1, 0);
      Success((NOTHING, j))
    else ValueRange(ts, i)
  }

  /** Elements joined by `^`. */
  function Elements(ts: Tokens, i: nat, sofar: Constraint): (r: Parsed<Constraint>)
    requires i <= |ts|
    ensures Advances(ts, i, r)
    decreases |ts| - i, 2
  {
    var (c, j) :- Element(ts, i);
    if Next(ts, j, Caret) then Elements(ts, j + 1, Merge(sofar, c)) else Success((Merge(sofar, c), j))
  }

  /** The end of a constraint, with or without the extension marker. */
  function CloseConstraint(ts: Tokens, i: nat, c: Constraint): (r: Parsed<Constraint>)
    ensures Advances(ts, i, r)
  {
    if Next(ts, i, Comma) then
      var j :- Expect(ts, i + 1, Ellipsis);
      if Next(ts, j, Bar) then Failure(Syntax) else
        var k :- Expect(ts, j, RParen);
        Success((Loosen(c), k))
    else if Next(ts, i, Bar) then Failure(Syntax)
    else
      var k :- Expect(ts, i, RParen);
      Success((c, k))
  }

  /** One parenthesised constraint. */
  function Parenthesised(ts: Tokens, i: nat): (r: Parsed<Constraint>)
    requires i <= |ts|
    ensures Advances(ts, i, r)
    decreases |ts| - i, 0
  {
    var j :- Expect(ts, i, LParen);
    var (c, k) :- Elements(ts, j, NOTHING);
    CloseConstraint(ts, k, c)
  }

  /** Constraints written after a type, applied as they are read. */
  function Narrowed(t: Type, ts: Tokens, i: nat): (r: Parsed<Type>)
    requires i <= |ts|
    ensures r.Success? ==> i <= r.value.1 <= |ts|
    decreases |ts| - i
  {
    if Next(ts, i, LParen) then
      var (c, j) :- Parenthesised(ts, i);
      var u :- Apply(t, c);
      Narrowed(u, ts, j)
    else Success((t, i))
  }

  /** Skip a bracketed list, if there is one. */
  function SkipList(ts: Tokens, i: nat, open: Token, close: Token): (r: Result<nat, Fault>)
    requires i <= |ts|
    ensures r.Success? ==> i <= r.value <= |ts|
  {
    if Next(ts, i, open) then SkipBalanced(ts, i, open, close, 0) else Success(i)
  }

  /** Enumeration items up to the closing brace; `ext` once the marker has been seen. */
  function EnumItems(ts: Tokens, i: nat, root: seq<string>, ext: Option<seq<string>>): (r: Parsed<Type>)
    requires i <= |ts|
    ensures Advances(ts, i, r)
    decreases |ts| - i
  {
    if i == |ts| then Failure(Syntax)
    else if ts[i] == RBrace then Success((Enum(root, ext), i + 1))
    else if ts[i] == Comma then EnumItems(ts, i + 1, root, ext)
    else if ts[i] == Ellipsis then EnumItems(ts, i + 1, root, if ext.Some? then ext else Some([]))
    else
      var j :- SkipList(ts, i + 1, LParen, RParen);
      if ext.Some? then EnumItems(ts, j, root, Some(ext.value + [Spelling(ts[i])]))
      else EnumItems(ts, j, root + [Spelling(ts[i])], None)
  }

  /** One component: its name, its type, and whether it is optional. */
  function OneComponent(ts: Tokens, i: nat): (r: Parsed<Field>)
    requires i < |ts|
    ensures Advances(ts, i, r)
    decreases |ts| - i, 0
  {
    var (ty, j) :- ParseType(ts, i + 1);
    if Next(ts, j, DEFAULT) then Failure(Syntax)
    else if Next(ts, j, OPTIONAL) then Success((Field(Spelling(ts[i]), ty, true), j + 1))
    else Success((Field(Spelling(ts[i]), ty, false), j))
  }

  /** Components up to the closing brace; `ext` is open once the marker has been seen. */
  function Components(ts: Tokens, i: nat, root: seq<Field>, ext: Extension): (r: Parsed<(seq<Field>, Extension)>)
    requires i <= |ts|
    ensures Advances(ts, i, r)
    decreases |ts| - i, 1
  {
    if i == |ts| then Failure(Syntax)
    else if ts[i] == RBrace then Success(((root, ext), i + 1))
    else if ts[i] == Comma then Components(ts, i + 1, root, ext)
    else if ts[i] == Ellipsis then
      if ext.Open? then Failure(Syntax) else Components(ts, i + 1, root, Open([]))
    else if ts[i] == LVersion then Failure(Syntax)
    else
      var (f, j) :- OneComponent(ts, i);
      if ext.Open? then Components(ts, j, root, Open(ext.fields + [f])) else Components(ts, j, root + [f], ext)
  }

  /** The size constraint between SEQUENCE (or SET) and OF. */
  function OfSize(ts: Tokens, i: nat): (r: Parsed<Option<Bounds>>)
    requires i <= |ts|
    ensures r.Success? ==> i <= r.value.1 <= |ts|
  {
    if Next(ts, i, LParen) then
      var (c, j) :- Parenthesised(ts, i);
      Success((if c.size.Some? then c.size.value else None, j))
    else if Next(ts, i, SIZE) then
      var (c, j) :- Parenthesised(ts, i + 1);
      Success((c.value, j))
    else Success((None, i))
  }

  /** A lower-case label before an element type is passed over. */
  function SkipLabel(ts: Tokens, i: nat): (j: nat)
    requires i <= |ts|
    ensures i <= j <= |ts|
  {
    if i + 1 < |ts| && IsLower(ts[i]) && IsUpper(ts[i + 1]) && ts[i + 1] != OF then i + 1 else i
  }

  /** `SEQUENCE OF` or `SET OF`, after the first keyword. */
  function ListOf(ts: Tokens, i: nat): (r: Parsed<Type>)
    requires i <= |ts|
    ensures Advances(ts, i, r)
    decreases |ts| - i, 3
  {
    var (size, j) :- OfSize(ts, i);
    var k :- Expect(ts, j, OF);
    var (t, end) :- ParseType(ts, SkipLabel(ts, k));
    Success((SeqOf(if size.Some? then size else Some(Bounds(Some(0), None, false)), t), end))
  }

  /** `SEQUENCE`, `SET` or `CHOICE` with its components, after the keyword. */
  function Listed(ts: Tokens, i: nat, choice: bool): (r: Parsed<Type>)
    requires i <= |ts|
    ensures Advances(ts, i, r)
    decreases |ts| - i, 2
  {
    var j :- Expect(ts, i, LBrace);
    var (c, k) :- Components(ts, j, [], Closed);
    Success((if choice then Choice(c.0, c.1) else Seq(c.0, c.1), k))
  }

  /** A word that is no keyword: a reference, or a parameterized type nobody looks into. */
  function Referred(ts: Tokens, i: nat): (r: Parsed<Type>)
    requires i < |ts|
    ensures Advances(ts, i, r)
  {
    if Next(ts, i + 1, LBrace) then
      var j :- SkipBalanced(ts, i + 1, LBrace, RBrace, 0);
      Success((Opaque("parameterized type " + Spelling(ts[i]) + "{}"), j))
    else Success((Ref(Spelling(ts[i]), []), i + 1))
  }

  /** The types of one or two keywords. */
  function SimpleType(ts: Tokens, i: nat): (r: Parsed<Type>)
    requires i < |ts|
    ensures Advances(ts, i, r)
  {
    var tok := ts[i];
    if tok == BOOLEAN then Success((Bool, i + 1))
    else if tok == NULL then Success((Null, i + 1))
    else if tok.CharString? then Success((Chars(tok.kind, None, None), i + 1))
    else if tok == INTEGER then
      var j :- SkipList(ts, i + 1, LBrace, RBrace);
      Success((Int(None), j))
    else if tok == OBJECT then
      var j :- Expect(ts, i + 1, IDENTIFIER);
      Success((Oid, j))
    else if tok == OCTET then
      var j :- Expect(ts, i + 1, STRING);
      Success((Octets(None), j))
    else if tok == BIT then
      var j :- Expect(ts, i + 1, STRING);
      var k :- SkipList(ts, j, LBrace, RBrace);
      Success((Bits(None), k))
    else if tok == TYPE_IDENTIFIER then
      var j :- Expect(ts, i + 1, Dot);
      var k :- Expect(ts, j, Ampersand);
      if k == |ts| then Failure(Syntax) else Success((Opaque("TYPE-IDENTIFIER.&Type"), k + 1))
    else Referred(ts, i)
  }

  /** A type before any constraint written after it. */
  function BaseType(ts: Tokens, i: nat): (r: Parsed<Type>)
    requires i <= |ts|
    ensures Advances(ts, i, r)
    decreases |ts| - i, 2
  {
    if i == |ts| then Failure(Syntax)
    else if ts[i] == SEQUENCE || ts[i] == SET then
      if Next(ts, i + 1, LBrace) then Listed(ts, i + 1, false) else ListOf(ts, i + 1)
    else if ts[i] == CHOICE then Listed(ts, i + 1, true)
    else if ts[i] == ENUMERATED then
      var j :- Expect(ts, i + 1, LBrace);
      EnumItems(ts, j, [], None)
    else SimpleType(ts, i)
  }

  function ParseType(ts: Tokens, i: nat): (r: Parsed<Type>)
    requires i <= |ts|
    ensures Advances(ts, i, r)
    decreases |ts| - i, 4
  {
    var (t, j) :- BaseType(ts, i);
    Narrowed(t, ts, j)
  }
}
