/**
 The editor's state as it is stored: UTF-8 lines, a row and a character column, updated in
 place (src/cli/input_state.rs). Every method is proved against the operation on characters
 in EditorDoc, and every string operation it makes is at a character boundary.
 */
module InputState {
  import opened Wrappers
  import opened Numbers
  import opened Utf8
  import D = EditorDoc
  import F = EditorFlat

  type Line = seq<Byte>

  /** What the lines say. */
  function CharLines(ls: seq<Line>): (r: seq<D.Text>)
    ensures |r| == |ls| && forall i :: 0 <= i < |ls| ==> r[i] == Chars(ls[i])
  {
    seq(|ls|, i requires 0 <= i < |ls| => Chars(ls[i]))
  }

  predicate AllText(ls: seq<Line>) {
    forall i :: 0 <= i < |ls| ==> IsText(ls[i])
  }

  lemma EmptyLine()
    ensures IsText([]) && Chars([]) == []
  {
  }

  lemma SetLine(ls: seq<Line>, r: nat, s: Line)
    requires AllText(ls) && r < |ls| && IsText(s)
    ensures AllText(ls[r := s]) && CharLines(ls[r := s]) == CharLines(ls)[r := Chars(s)]
  {
  }

  lemma CutLines(ls: seq<Line>, i: nat, j: nat, mid: seq<Line>)
    requires AllText(ls) && AllText(mid) && i <= j <= |ls|
    ensures var ls' := ls[..i] + mid + ls[j..];
            AllText(ls') && CharLines(ls') == CharLines(ls)[..i] + CharLines(mid) + CharLines(ls)[j..]
  {
    hide IsText, Chars;
  }

  // ---- the joined text ------------------------------------------------------------------

  function Rest(ls: seq<Line>): Line {
    if ls == [] then [] else [10] + ls[0] + Rest(ls[1..])
  }

  /** `lines.join("\n")` on bytes. */
  function JoinLines(ls: seq<Line>): Line {
    if ls == [] then [] else ls[0] + Rest(ls[1..])
  }

  lemma {:induction false} RestIsText(ls: seq<Line>)
    requires AllText(ls)
    ensures Rest(ls) == Bytes(D.Tails(CharLines(ls)))
    decreases |ls|
  {
    if ls != [] {
      RestIsText(ls[1..]);
      var cs := CharLines(ls);
      assert cs[1..] == CharLines(ls[1..]);
      BytesConcat([D.NL] + cs[0], D.Tails(cs[1..]));
      BytesConcat([D.NL], cs[0]);
      OneChar(D.NL);
    }
  }

  /** The whole text is the joined characters, encoded. */
  lemma JoinIsText(ls: seq<Line>)
    requires AllText(ls)
    ensures JoinLines(ls) == Bytes(D.Join(CharLines(ls)))
    ensures IsText(JoinLines(ls)) && Chars(JoinLines(ls)) == D.Join(CharLines(ls))
  {
    if ls != [] {
      RestIsText(ls[1..]);
      var cs := CharLines(ls);
      assert cs[1..] == CharLines(ls[1..]);
      BytesConcat(cs[0], D.Tails(cs[1..]));
    }
    CharsOfBytes(D.Join(CharLines(ls)));
  }

  // ---- runs of whitespace and of word characters ----------------------------------------

  method SkipBack(chars: D.Text, from: nat, kind: D.Kind) returns (to: nat)
    requires from <= |chars|
    ensures to <= from && to == from - D.BackRun(chars[..from], kind)
  {
    to := from;
    while to > 0 && D.In(kind, chars[to - 1])
      invariant to <= from
      invariant D.BackRun(chars[..from], kind) == from - to + D.BackRun(chars[..to], kind)
    {
      assert chars[..to][..to - 1] == chars[..to - 1];
      to := to - 1;
    }
  }

  method SkipForward(chars: D.Text, from: nat, kind: D.Kind) returns (to: nat)
    requires from <= |chars|
    ensures from <= to <= |chars| && to == from + D.FrontRun(chars[from..], kind)
  {
    to := from;
    while to < |chars| && D.In(kind, chars[to])
      invariant from <= to <= |chars|
      invariant D.FrontRun(chars[from..], kind) == to - from + D.FrontRun(chars[to..], kind)
    {
      assert chars[to..][1..] == chars[to + 1..];
      to := to + 1;
    }
  }

  method WordBefore(chars: D.Text, from: nat) returns (to: nat)
    requires from <= |chars|
    ensures to <= from && to == from - D.WordBack(chars[..from], D.Space)
  {
    var gap := SkipBack(chars, from, D.Space);
    assert chars[..from][..gap] == chars[..gap];
    to := SkipBack(chars, gap, D.Solid);
  }

  method After(chars: D.Text, from: nat, first: D.Kind, second: D.Kind) returns (to: nat)
    requires from <= |chars|
    ensures from <= to <= |chars| && to == from + D.Ahead(chars[from..], first, second)
  {
    var mid := SkipForward(chars, from, first);
    assert chars[from..][mid - from..] == chars[mid..];
    to := SkipForward(chars, mid, second);
  }

  // ---- keys -----------------------------------------------------------------------------

  datatype Direction = Up | Down | Left | Right

  datatype Key = Char(c: Scalar) | Backspace | Delete | Arrow(d: Direction) | Home | End | Other

  function Move(d: Direction): F.Edit {
    match d
    case Up => F.GoUp
    case Down => F.GoDown
    case Left => F.GoLeft
    case Right => F.GoRight
  }

  /** The edit a key stands for; a character with Control or Alt is left to the caller. */
  function EditOf(key: Key, control: bool, alt: bool): Option<F.Edit> {
    match key
    case Char(c) => if control || alt then None else Some(F.Type(c))
    case Backspace => Some(F.Back)
    case Delete => Some(F.Del)
    case Arrow(d) => Some(Move(d))
    case Home => Some(F.GoHome)
    case End => Some(F.GoEnd)
    case Other => None
  }

  class InputState {
    var lines: seq<Line>
    var row: nat
    var col: nat

    predicate Valid()
      reads this
    {
      AllText(lines) && row < |lines| && col <= |Chars(lines[row])|
    }

    function Doc(): (d: D.Doc)
      requires Valid()
      reads this
      ensures D.Valid(d)
    {
      D.Doc(CharLines(lines), row, col)
    }

    constructor ()
      ensures Valid() && Doc() == D.Empty
    {
      lines, row, col := [[]], 0, 0;
      new;
      EmptyLine();
      assert CharLines(lines) == [[]];
    }

    constructor FromLines(ls: seq<Line>)
      requires AllText(ls)
      ensures Valid() && Doc() == D.FromLines(CharLines(ls))
    {
      if ls == [] {
        lines, row, col := [[]], 0, 0;
      } else {
        lines, row, col := ls, |ls| - 1, |Chars(ls[|ls| - 1])|;
      }
      new;
      EmptyLine();
      assert ls == [] ==> CharLines(lines) == [[]];
    }

    method Text() returns (t: Line)
      requires Valid()
      ensures IsText(t) && Chars(t) == D.View(Doc()).left + D.View(Doc()).right
    {
      t := JoinLines(lines);
      JoinIsText(lines);
      F.TextIsFlat(Doc());
    }

    method Clear()
      requires Valid()
      modifies this
      ensures Valid() && Doc() == D.Empty
    {
      lines, row, col := [[]], 0, 0;
      EmptyLine();
      assert CharLines(lines) == [[]];
    }

    method InsertChar(c: Scalar)
      requires Valid()
      modifies this
      ensures Valid() && Doc() == D.Insert(old(Doc()), c)
    {
      hide IsText, Chars, ByteOffset, Boundary, InsertAt;
      InsertedText(lines[row], col, c);
      var offset := ByteOffset(lines[row], col);
      var line := InsertAt(lines[row], offset, c);
      SetLine(lines, row, line);
      lines := lines[row := line];
      col := col + 1;
    }

    method InsertNewline()
      requires Valid()
      modifies this
      ensures Valid() && Doc() == D.Newline(old(Doc()))
    {
      hide IsText, Chars, ByteOffset, Boundary, Truncate, From;
      TruncatedText(lines[row], col);
      var offset := ByteOffset(lines[row], col);
      var rest := From(lines[row], offset);
      var line := Truncate(lines[row], offset);
      NewlineLines(lines, row, line, rest);
      lines := lines[row := line];
      row := row + 1;
      lines := lines[..row] + [rest] + lines[row..];
      col := 0;
    }

    method DeleteChar()
      requires Valid()
      modifies this
      ensures Valid() && Doc() == D.Backspace(old(Doc()))
    {
      hide IsText, Chars, ByteOffset, Boundary, RemoveAt;
      if col > 0 {
        RemovedChar(lines[row], col - 1);
        var offset := ByteOffset(lines[row], col - 1);
        var line := RemoveAt(lines[row], offset);
        SetLine(lines, row, line);
        lines := lines[row := line];
        col := col - 1;
      } else if row > 0 {
        var current := lines[row];
        JoinedText(lines[row - 1], current);
        JoinedLines(lines, row - 1, lines[row - 1] + current);
        lines := lines[..row] + lines[row + 1..];
        row := row - 1;
        col := |Chars(lines[row])|;
        lines := lines[row := lines[row] + current];
      }
    }

    method DeleteCharForward()
      requires Valid()
      modifies this
      ensures Valid() && Doc() == D.Delete(old(Doc()))
    {
      hide IsText, Chars, ByteOffset, Boundary, RemoveAt;
      if col < |Chars(lines[row])| {
        RemovedChar(lines[row], col);
        var offset := ByteOffset(lines[row], col);
        var line := RemoveAt(lines[row], offset);
        SetLine(lines, row, line);
        lines := lines[row := line];
      } else if row < |lines| - 1 {
        var next := lines[row + 1];
        JoinedText(lines[row], next);
        JoinedLines(lines, row, lines[row] + next);
        lines := lines[..row + 1] + lines[row + 2..];
        lines := lines[row := lines[row] + next];
      }
    }

    method DeleteToEndOfLine()
      requires Valid()
      modifies this
      ensures Valid() && Doc() == D.KillToEnd(old(Doc()))
    {
      hide IsText, Chars, ByteOffset, Boundary, Truncate;
      TruncatedText(lines[row], col);
      var offset := ByteOffset(lines[row], col);
      var line := Truncate(lines[row], offset);
      SetLine(lines, row, line);
      lines := lines[row := line];
    }

    method DeleteLine()
      requires Valid()
      modifies this
      ensures Valid() && Doc() == D.KillLine(old(Doc()))
    {
      EmptyLine();
      SetLine(lines, row, []);
      lines := lines[row := []];
      col := 0;
    }

    method DeleteWord()
      requires Valid()
      modifies this
      ensures Valid() && Doc() == D.DeleteWord(old(Doc()))
    {
      hide IsText, Chars, ByteOffset, Boundary, RemoveRange, D.WordBack;
      if col == 0 {
        NoWordBefore(Doc());
        return;
      }
      var line := lines[row];
      var chars := Chars(line);
      var end := Min(col, |chars|);
      var to := WordBefore(chars, end);
      RemovedText(line, to, end);
      line := RemoveRange(line, ByteOffset(line, to), ByteOffset(line, end));
      SetLine(lines, row, line);
      lines := lines[row := line];
      col := to;
    }

    method DeleteWordForward()
      requires Valid()
      modifies this
      ensures Valid() && Doc() == D.DeleteWordForward(old(Doc()))
    {
      hide IsText, Chars, ByteOffset, Boundary, RemoveRange, D.Ahead;
      var line := lines[row];
      var chars := Chars(line);
      if col >= |chars| {
        NoWordAfter(Doc());
        return;
      }
      var to := After(chars, col, D.Space, D.Solid);
      RemovedText(line, col, to);
      line := RemoveRange(line, ByteOffset(line, col), ByteOffset(line, to));
      SetLine(lines, row, line);
      lines := lines[row := line];
    }

    method MoveCursorWordLeft()
      requires Valid()
      modifies this`row, this`col
      ensures Valid() && Doc() == D.WordLeft(old(Doc()))
    {
      hide IsText, Chars, D.WordBack;
      if col == 0 {
        if row > 0 {
          row := row - 1;
          col := |Chars(lines[row])|;
        }
        return;
      }
      var chars := Chars(lines[row]);
      col := WordBefore(chars, Min(col, |chars|));
    }

    method MoveCursorWordRight()
      requires Valid()
      modifies this`row, this`col
      ensures Valid() && Doc() == D.WordRight(old(Doc()))
    {
      hide IsText, Chars, D.Ahead;
      var chars := Chars(lines[row]);
      if col >= |chars| {
        if row < |lines| - 1 {
          row := row + 1;
          col := 0;
        }
        return;
      }
      col := After(chars, col, D.Solid, D.Space);
    }

    method MoveCursor(direction: Direction)
      requires Valid()
      modifies this`row, this`col
      ensures Valid() && Doc() == F.Apply(old(Doc()), Move(direction))
    {
      hide IsText, Chars;
      match direction {
        case Up =>
          if row > 0 {
            row := row - 1;
            col := Min(col, |Chars(lines[row])|);
          }
        case Down =>
          if row < |lines| - 1 {
            row := row + 1;
            col := Min(col, |Chars(lines[row])|);
          }
        case Left =>
          if col > 0 {
            col := col - 1;
          } else if row > 0 {
            row := row - 1;
            col := |Chars(lines[row])|;
          }
        case Right =>
          if col < |Chars(lines[row])| {
            col := col + 1;
          } else if row < |lines| - 1 {
            row := row + 1;
            col := 0;
          }
      }
    }

    method MoveToStartOfLine()
      requires Valid()
      modifies this`col
      ensures Valid() && Doc() == D.Home(old(Doc()))
    {
      col := 0;
    }

    method MoveToEndOfLine()
      requires Valid()
      modifies this`col
      ensures Valid() && Doc() == D.End(old(Doc()))
    {
      col := |Chars(lines[row])|;
    }

    method MoveToTop()
      requires Valid()
      modifies this`row, this`col
      ensures Valid() && Doc() == D.Top(old(Doc()))
    {
      row, col := 0, 0;
    }

    method MoveToBottom()
      requires Valid()
      modifies this`row, this`col
      ensures Valid() && Doc() == D.Bottom(old(Doc()))
    {
      row := |lines| - 1;
      col := |Chars(lines[row])|;
    }

    method HandleKey(key: Key, control: bool, alt: bool) returns (handled: bool)
      requires Valid()
      modifies this
      ensures Valid()
      ensures handled == EditOf(key, control, alt).Some?
      ensures handled ==> Doc() == F.Apply(old(Doc()), EditOf(key, control, alt).value)
      ensures !handled ==> Doc() == old(Doc())
    {
      hide IsText, Chars, AllText, D.Insert, D.Backspace, D.Delete, D.Home, D.End;
      handled := true;
      match key {
        case Char(c) =>
          if control || alt {
            handled := false;
          } else {
            InsertChar(c);
          }
        case Backspace => DeleteChar();
        case Delete => DeleteCharForward();
        case Arrow(d) => MoveCursor(d);
        case Home => MoveToStartOfLine();
        case End => MoveToEndOfLine();
        case Other => handled := false;
      }
    }
  }

  // ---- what the methods' branches leave out ---------------------------------------------

  lemma NoWordBefore(d: D.Doc)
    requires D.Valid(d) && d.col == 0
    ensures D.DeleteWord(d) == d
  {
    var l := d.lines[d.row];
    assert l[..0] + l[0..] == l;
  }

  lemma NoWordAfter(d: D.Doc)
    requires D.Valid(d) && d.col == |d.lines[d.row]|
    ensures D.DeleteWordForward(d) == d
  {
    var l := d.lines[d.row];
    assert l[..d.col] + l[d.col..] == l;
  }

  lemma NewlineLines(ls: seq<Line>, r: nat, line: Line, rest: Line)
    requires AllText(ls) && r < |ls| && IsText(line) && IsText(rest)
    ensures var ls' := ls[r := line][..r + 1] + [rest] + ls[r := line][r + 1..];
            && AllText(ls')
            && CharLines(ls') == CharLines(ls)[..r] + [Chars(line), Chars(rest)] + CharLines(ls)[r + 1..]
  {
    hide IsText, Chars;
    CutLines(ls, r, r + 1, [line, rest]);
    assert ls[r := line][..r + 1] + [rest] + ls[r := line][r + 1..] == ls[..r] + [line, rest] + ls[r + 1..];
    assert CharLines([line, rest]) == [Chars(line), Chars(rest)];
  }

  /** Two lines made one. */
  lemma JoinedLines(ls: seq<Line>, r: nat, line: Line)
    requires AllText(ls) && r + 1 < |ls| && IsText(line)
    ensures var ls' := (ls[..r + 1] + ls[r + 2..])[r := line];
            AllText(ls') && CharLines(ls') == CharLines(ls)[..r] + [Chars(line)] + CharLines(ls)[r + 2..]
  {
    hide IsText, Chars;
    CutLines(ls, r, r + 2, [line]);
    assert (ls[..r + 1] + ls[r + 2..])[r := line] == ls[..r] + [line] + ls[r + 2..];
    assert CharLines([line]) == [Chars(line)];
  }
}
