/**
 The input editor over characters: lines with a row and a character column
 (src/cli/input_state.rs), and the flat text with one position that they stand for.
 */
module EditorDoc {
  import opened Utf8
  import opened Numbers

  const NL: Scalar := 10

  type Text = seq<Scalar>

  datatype Doc = Doc(lines: seq<Text>, row: nat, col: nat)

  /** The cursor is on a line, at one of its characters or at its end. */
  predicate Valid(d: Doc) {
    d.row < |d.lines| && d.col <= |d.lines[d.row]|
  }

  /** No line holds a newline character. */
  predicate Clean(ls: seq<Text>) {
    forall i :: 0 <= i < |ls| ==> NL !in ls[i]
  }

  // ---- runs of characters ---------------------------------------------------------------

  /** `char::is_whitespace`: the Unicode property White_Space. */
  predicate IsSpace(c: Scalar) {
    || 9 <= c <= 13 || c == 0x20 || c == 0x85 || c == 0xA0 || c == 0x1680 || 0x2000 <= c <= 0x200A
    || c == 0x2028 || c == 0x2029 || c == 0x202F || c == 0x205F || c == 0x3000
  }

  datatype Kind = Space | Solid | Blank | InLine

  predicate In(k: Kind, c: Scalar) {
    match k
    case Space => IsSpace(c)
    case Solid => !IsSpace(c)
    case Blank => IsSpace(c) && c != NL
    case InLine => c != NL
  }

  /** How many characters at the end of `s` are of kind `k`. */
  function BackRun(s: Text, k: Kind): (n: nat)
    ensures n <= |s|
  {
    if s == [] || !In(k, s[|s| - 1]) then 0 else 1 + BackRun(s[..|s| - 1], k)
  }

  /** How many characters at the start of `s` are of kind `k`. */
  function FrontRun(s: Text, k: Kind): (n: nat)
    ensures n <= |s|
  {
    if s == [] || !In(k, s[0]) then 0 else 1 + FrontRun(s[1..], k)
  }

  lemma {:induction false} BackRunIsLongest(s: Text, k: Kind)
    ensures var n := |s| - BackRun(s, k);
            && (forall i :: n <= i < |s| ==> In(k, s[i]))
            && (n > 0 ==> !In(k, s[n - 1]))
    decreases |s|
  {
    hide In;
    if s != [] && In(k, s[|s| - 1]) {
      BackRunIsLongest(s[..|s| - 1], k);
    }
  }

  lemma {:induction false} FrontRunIsLongest(s: Text, k: Kind)
    ensures var n := FrontRun(s, k);
            && (forall i :: 0 <= i < n ==> In(k, s[i]))
            && (n < |s| ==> !In(k, s[n]))
    decreases |s|
  {
    hide In;
    if s != [] && In(k, s[0]) {
      FrontRunIsLongest(s[1..], k);
      assert forall i :: 0 < i < |s| ==> s[i] == s[1..][i - 1];
    }
  }

  /** Back over `gap` characters, then over a word. */
  function WordBack(s: Text, gap: Kind): (n: nat)
    ensures n <= |s|
  {
    var b := BackRun(s, gap);
    b + BackRun(s[..|s| - b], Solid)
  }

  /** What is passed over: from `m` on a gap, and before it a word, both as long as they can be. */
  lemma WordBackIs(s: Text, gap: Kind) returns (m: nat)
    ensures var n := |s| - WordBack(s, gap);
            && n <= m <= |s|
            && (forall i :: n <= i < m ==> !IsSpace(s[i])) && (n > 0 ==> IsSpace(s[n - 1]))
            && (forall i :: m <= i < |s| ==> In(gap, s[i])) && (m > 0 ==> !In(gap, s[m - 1]))
  {
    m := |s| - BackRun(s, gap);
    BackRunIsLongest(s, gap);
    BackRunIsLongest(s[..m], Solid);
    hide IsSpace, BackRun;
    assert forall i :: 0 <= i < m ==> s[..m][i] == s[i];
  }

  /** Forward over characters of kind `first`, then over those of kind `second`. */
  function Ahead(s: Text, first: Kind, second: Kind): (n: nat)
    ensures n <= |s|
  {
    var b := FrontRun(s, first);
    b + FrontRun(s[b..], second)
  }

  /** What is passed over: up to `m` one run and from there another, both as long as they can be. */
  lemma AheadIs(s: Text, first: Kind, second: Kind) returns (m: nat)
    ensures var n := Ahead(s, first, second);
            && m <= n <= |s|
            && (forall i :: 0 <= i < m ==> In(first, s[i])) && (m < |s| ==> !In(first, s[m]))
            && (forall i :: m <= i < n ==> In(second, s[i])) && (n < |s| ==> !In(second, s[n]))
  {
    m := FrontRun(s, first);
    FrontRunIsLongest(s, first);
    FrontRunIsLongest(s[m..], second);
    hide In, FrontRun;
    assert forall i {:trigger s[i]} :: m <= i < |s| ==> s[i] == s[m..][i - m];
  }

  // ---- the editor's operations ----------------------------------------------------------

  const Empty := Doc([[]], 0, 0)

  function FromLines(ls: seq<Text>): (d: Doc)
    ensures Valid(d)
  {
    if ls == [] then Empty else Doc(ls, |ls| - 1, |ls[|ls| - 1]|)
  }

  function Insert(d: Doc, c: Scalar): Doc
    requires Valid(d)
  {
    var l := d.lines[d.row];
    Doc(d.lines[d.row := l[..d.col] + [c] + l[d.col..]], d.row, d.col + 1)
  }

  function Newline(d: Doc): Doc
    requires Valid(d)
  {
    var l := d.lines[d.row];
    Doc(d.lines[..d.row] + [l[..d.col], l[d.col..]] + d.lines[d.row + 1..], d.row + 1, 0)
  }

  function Backspace(d: Doc): Doc
    requires Valid(d)
  {
    var l := d.lines[d.row];
    if d.col > 0 then Doc(d.lines[d.row := l[..d.col - 1] + l[d.col..]], d.row, d.col - 1)
    else if d.row > 0 then
      var up := d.lines[d.row - 1];
      Doc(d.lines[..d.row - 1] + [up + l] + d.lines[d.row + 1..], d.row - 1, |up|)
    else d
  }

  function Delete(d: Doc): Doc
    requires Valid(d)
  {
    var l := d.lines[d.row];
    if d.col < |l| then Doc(d.lines[d.row := l[..d.col] + l[d.col + 1..]], d.row, d.col)
    else if d.row < |d.lines| - 1 then
      Doc(d.lines[..d.row] + [l + d.lines[d.row + 1]] + d.lines[d.row + 2..], d.row, d.col)
    else d
  }

  function KillToEnd(d: Doc): Doc
    requires Valid(d)
  {
    Doc(d.lines[d.row := d.lines[d.row][..d.col]], d.row, d.col)
  }

  function KillLine(d: Doc): Doc
    requires Valid(d)
  {
    Doc(d.lines[d.row := []], d.row, 0)
  }

  function DeleteWord(d: Doc): Doc
    requires Valid(d)
  {
    var l := d.lines[d.row];
    var to := d.col - WordBack(l[..d.col], Space);
    Doc(d.lines[d.row := l[..to] + l[d.col..]], d.row, to)
  }

  function DeleteWordForward(d: Doc): Doc
    requires Valid(d)
  {
    var l := d.lines[d.row];
    var to := d.col + Ahead(l[d.col..], Space, Solid);
    Doc(d.lines[d.row := l[..d.col] + l[to..]], d.row, d.col)
  }

  function WordLeft(d: Doc): Doc
    requires Valid(d)
  {
    if d.col == 0 then Left(d)
    else d.(col := d.col - WordBack(d.lines[d.row][..d.col], Space))
  }

  function WordRight(d: Doc): Doc
    requires Valid(d)
  {
    if d.col >= |d.lines[d.row]| then Right(d)
    else d.(col := d.col + Ahead(d.lines[d.row][d.col..], Solid, Space))
  }

  function Up(d: Doc): Doc
    requires Valid(d)
  {
    if d.row > 0 then d.(row := d.row - 1, col := Min(d.col, |d.lines[d.row - 1]|)) else d
  }

  function Down(d: Doc): Doc
    requires Valid(d)
  {
    if d.row < |d.lines| - 1 then d.(row := d.row + 1, col := Min(d.col, |d.lines[d.row + 1]|)) else d
  }

  function Left(d: Doc): Doc
    requires Valid(d)
  {
    if d.col > 0 then d.(col := d.col - 1)
    else if d.row > 0 then d.(row := d.row - 1, col := |d.lines[d.row - 1]|)
    else d
  }

  function Right(d: Doc): Doc
    requires Valid(d)
  {
    if d.col < |d.lines[d.row]| then d.(col := d.col + 1)
    else if d.row < |d.lines| - 1 then d.(row := d.row + 1, col := 0)
    else d
  }

  function Home(d: Doc): Doc {
    d.(col := 0)
  }

  function End(d: Doc): Doc
    requires Valid(d)
  {
    d.(col := |d.lines[d.row]|)
  }

  function Top(d: Doc): Doc {
    d.(row := 0, col := 0)
  }

  function Bottom(d: Doc): Doc
    requires Valid(d)
  {
    d.(row := |d.lines| - 1, col := |d.lines[|d.lines| - 1]|)
  }

  // ---- flat text ------------------------------------------------------------------------

  /** Text with one position: what is before it and what is after it. */
  datatype Flat = Flat(left: Text, right: Text) {
    function Seek(pos: nat): Flat
      requires pos <= |left + right|
    {
      Flat((left + right)[..pos], (left + right)[pos..])
    }
  }

  /** Each line followed by a newline. */
  function Heads(ls: seq<Text>): (t: Text)
    ensures t == [] || t[|t| - 1] == NL
    ensures ls == [] <==> t == []
  {
    if ls == [] then [] else Heads(ls[..|ls| - 1]) + ls[|ls| - 1] + [NL]
  }

  /** Each line preceded by a newline. */
  function Tails(ls: seq<Text>): (t: Text)
    ensures t == [] || t[0] == NL
    ensures ls == [] <==> t == []
  {
    if ls == [] then [] else [NL] + ls[0] + Tails(ls[1..])
  }

  /** `lines.join("\n")` */
  function Join(ls: seq<Text>): Text {
    if ls == [] then [] else ls[0] + Tails(ls[1..])
  }

  function View(d: Doc): Flat
    requires Valid(d)
  {
    var l := d.lines[d.row];
    Flat(Heads(d.lines[..d.row]) + l[..d.col], l[d.col..] + Tails(d.lines[d.row + 1..]))
  }

  /** The document with cursor between `u` and `v`, lines `a` above and `b` below. */
  function Make(a: seq<Text>, u: Text, v: Text, b: seq<Text>): (d: Doc)
    ensures Valid(d)
  {
    Doc(a + [u + v] + b, |a|, |u|)
  }

  lemma MakeView(a: seq<Text>, u: Text, v: Text, b: seq<Text>)
    ensures View(Make(a, u, v, b)) == Flat(Heads(a) + u, v + Tails(b))
  {
    var d := Make(a, u, v, b);
    assert d.lines[..|a|] == a;
    assert d.lines[|a| + 1..] == b;
    assert d.lines[|a|] == u + v;
    assert (u + v)[..|u|] == u && (u + v)[|u|..] == v;
  }

  /** Every document is made of its parts. */
  lemma Parts(d: Doc) returns (a: seq<Text>, u: Text, v: Text, b: seq<Text>)
    requires Valid(d)
    ensures d == Make(a, u, v, b)
    ensures a == d.lines[..d.row] && b == d.lines[d.row + 1..] && u + v == d.lines[d.row] && |u| == d.col
    ensures Clean(d.lines) ==> Clean(a) && Clean(b) && NL !in u && NL !in v
  {
    var l := d.lines[d.row];
    a, u, v, b := d.lines[..d.row], l[..d.col], l[d.col..], d.lines[d.row + 1..];
    assert u + v == l;
    assert d.lines == a + [l] + b;
    if Clean(d.lines) {
      assert NL !in l;
    }
  }

  lemma CleanMake(a: seq<Text>, u: Text, v: Text, b: seq<Text>)
    ensures Clean(a) && Clean(b) && NL !in u && NL !in v ==> Clean(Make(a, u, v, b).lines)
  {
  }

  // ---- the flat operations --------------------------------------------------------------

  function FlatInsert(g: Flat, c: Scalar): Flat {
    Flat(g.left + [c], g.right)
  }

  function FlatBackspace(g: Flat): Flat {
    if g.left == [] then g else Flat(g.left[..|g.left| - 1], g.right)
  }

  function FlatDelete(g: Flat): Flat {
    if g.right == [] then g else Flat(g.left, g.right[1..])
  }

  function FlatLeft(g: Flat): Flat {
    if g.left == [] then g else g.Seek(|g.left| - 1)
  }

  function FlatRight(g: Flat): Flat {
    if g.right == [] then g else g.Seek(|g.left| + 1)
  }

  /** Where the position's line starts and where it ends. */
  function LineStart(g: Flat): (n: nat)
    ensures n <= |g.left|
  {
    |g.left| - BackRun(g.left, InLine)
  }

  function LineEnd(g: Flat): (n: nat)
    ensures |g.left| <= n <= |g.left + g.right|
  {
    |g.left| + FrontRun(g.right, InLine)
  }

  function FlatKillToEnd(g: Flat): Flat {
    Flat(g.left, g.right[FrontRun(g.right, InLine)..])
  }

  function FlatKillLine(g: Flat): Flat {
    Flat(g.left[..LineStart(g)], g.right[FrontRun(g.right, InLine)..])
  }

  function FlatDeleteWord(g: Flat): Flat {
    Flat(g.left[..|g.left| - WordBack(g.left, Blank)], g.right)
  }

  function FlatDeleteWordForward(g: Flat): Flat {
    Flat(g.left, g.right[Ahead(g.right, Blank, Solid)..])
  }

  function FlatWordLeft(g: Flat): Flat {
    if LineStart(g) == |g.left| then FlatLeft(g) else g.Seek(|g.left| - WordBack(g.left, Blank))
  }

  function FlatWordRight(g: Flat): Flat {
    if LineEnd(g) == |g.left| then FlatRight(g) else g.Seek(|g.left| + Ahead(g.right, Solid, Blank))
  }

  /** To the line above, at the same distance from its start if it is that long. */
  function FlatUp(g: Flat): Flat {
    var start := LineStart(g);
    if start == 0 then g
    else
      var up := g.Seek(start - 1);
      g.Seek(LineStart(up) + Min(|g.left| - start, start - 1 - LineStart(up)))
  }

  /** To the line below, at the same distance from its start if it is that long. */
  function FlatDown(g: Flat): Flat {
    var end := LineEnd(g);
    if end == |g.left + g.right| then g
    else
      var down := g.Seek(end + 1);
      g.Seek(end + 1 + Min(|g.left| - LineStart(g), LineEnd(down) - (end + 1)))
  }
}
