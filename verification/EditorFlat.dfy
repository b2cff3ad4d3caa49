/**
 Every edit and every cursor movement of the line editor is the obvious operation on flat
 text with one position, over every sequence of edits.
 */
module EditorFlat {
  import opened Utf8
  import opened Numbers
  import opened EditorDoc

  // ---- runs do not cross a line's ends --------------------------------------------------

  lemma {:induction false} BackLocal(p: Text, u: Text, k: Kind)
    requires p == [] || !In(k, p[|p| - 1])
    ensures BackRun(p + u, k) == BackRun(u, k)
    decreases |u|
  {
    hide In;
    if u == [] {
      assert p + u == p;
    } else {
      var n := |u| - 1;
      assert (p + u)[..|p| + n] == p + u[..n] && (p + u)[|p| + n] == u[n];
      BackLocal(p, u[..n], k);
    }
  }

  lemma {:induction false} FrontLocal(v: Text, s: Text, k: Kind)
    requires s == [] || !In(k, s[0])
    ensures FrontRun(v + s, k) == FrontRun(v, k)
    decreases |v|
  {
    hide In;
    if v == [] {
      assert v + s == s;
    } else {
      assert (v + s)[1..] == v[1..] + s;
      FrontLocal(v[1..], s, k);
    }
  }

  lemma {:induction false} BackInLine(u: Text)
    requires NL !in u
    ensures BackRun(u, InLine) == |u| && BackRun(u, Blank) == BackRun(u, Space)
    decreases |u|
  {
    if u != [] {
      BackInLine(u[..|u| - 1]);
    }
  }

  lemma {:induction false} FrontInLine(v: Text)
    requires NL !in v
    ensures FrontRun(v, InLine) == |v| && FrontRun(v, Blank) == FrontRun(v, Space)
    decreases |v|
  {
    if v != [] {
      FrontInLine(v[1..]);
    }
  }

  lemma WordBackLocal(p: Text, u: Text)
    requires p == [] || p[|p| - 1] == NL
    requires NL !in u
    ensures WordBack(p + u, Blank) == WordBack(u, Space)
  {
    hide BackRun;
    BackLocal(p, u, Blank);
    BackInLine(u);
    var n := |u| - BackRun(u, Space);
    assert (p + u)[..|p| + n] == p + u[..n];
    BackLocal(p, u[..n], Solid);
  }

  lemma AheadLocal(v: Text, s: Text)
    requires s == [] || s[0] == NL
    requires NL !in v
    ensures Ahead(v + s, Blank, Solid) == Ahead(v, Space, Solid)
  {
    hide FrontRun;
    FrontLocal(v, s, Blank);
    FrontInLine(v);
    var n := FrontRun(v, Space);
    assert (v + s)[n..] == v[n..] + s;
    FrontLocal(v[n..], s, Solid);
  }

  lemma AheadOverWord(v: Text, s: Text)
    requires s == [] || s[0] == NL
    requires NL !in v
    ensures Ahead(v + s, Solid, Blank) == Ahead(v, Solid, Space)
  {
    hide FrontRun;
    FrontLocal(v, s, Solid);
    var n := FrontRun(v, Solid);
    assert (v + s)[n..] == v[n..] + s;
    FrontLocal(v[n..], s, Blank);
    FrontInLine(v[n..]);
  }

  lemma LineEnds(a: seq<Text>, u: Text, v: Text, b: seq<Text>)
    requires NL !in u && NL !in v
    ensures var g := Flat(Heads(a) + u, v + Tails(b));
            && LineStart(g) == |Heads(a)| && LineEnd(g) == |g.left| + |v|
            && BackRun(g.left, InLine) == |u| && FrontRun(g.right, InLine) == |v|
  {
    BackLocal(Heads(a), u, InLine);
    BackInLine(u);
    FrontLocal(v, Tails(b), InLine);
    FrontInLine(v);
  }

  // ---- one line above, one line below ---------------------------------------------------

  lemma LastHead(a: seq<Text>)
    requires a != []
    ensures Heads(a) == Heads(a[..|a| - 1]) + a[|a| - 1] + [NL]
  {
  }

  /** The same document with the cursor at the end of the line above. */
  lemma JoinUp(a: seq<Text>, v: Text, b: seq<Text>)
    requires a != []
    ensures Make(a, [], v, b).lines == a[..|a| - 1] + [a[|a| - 1]] + [v] + b
    ensures Make(a[..|a| - 1], a[|a| - 1], [], [v] + b).lines == Make(a, [], v, b).lines
  {
    assert [] + v == v && a[|a| - 1] + [] == a[|a| - 1];
    assert a == a[..|a| - 1] + [a[|a| - 1]];
  }

  lemma FirstTail(b: seq<Text>)
    requires b != []
    ensures Tails(b) == [NL] + b[0] + Tails(b[1..])
  {
  }

  lemma TailsOfCons(v: Text, b: seq<Text>)
    ensures Tails([v] + b) == [NL] + v + Tails(b)
  {
    assert ([v] + b)[1..] == b;
  }

  lemma HeadsOfSnoc(a: seq<Text>, u: Text)
    ensures Heads(a + [u]) == Heads(a) + u + [NL]
  {
    assert (a + [u])[..|a|] == a;
  }

  lemma Regroup<T>(p: seq<T>, m: seq<T>, l: seq<T>, s: seq<T>)
    ensures p + (m + l + s) == p + m + l + s
  {
  }

  /** The text is what is before the cursor and what is after it. */
  lemma {:induction false} TextOfLines(a: seq<Text>, l: Text, b: seq<Text>)
    ensures Join(a + [l] + b) == Heads(a) + l + Tails(b)
    decreases |a|
  {
    if a == [] {
      assert (a + [l] + b)[1..] == b;
    } else {
      var n := |a| - 1;
      assert a + [l] + b == a[..n] + [a[n]] + ([l] + b);
      TextOfLines(a[..n], a[n], [l] + b);
      TailsOfCons(l, b);
      LastHead(a);
      Regroup(Heads(a[..n]) + a[n], [NL], l, Tails(b));
    }
  }

  lemma TextIsFlat(d: Doc)
    requires Valid(d)
    ensures View(d).left + View(d).right == Join(d.lines)
  {
    var l := d.lines[d.row];
    assert d.lines == d.lines[..d.row] + [l] + d.lines[d.row + 1..];
    TextOfLines(d.lines[..d.row], l, d.lines[d.row + 1..]);
    assert l[..d.col] + l[d.col..] == l;
  }

  // ---- a document is determined by its flat view ----------------------------------------

  lemma SameSplit<T>(p: seq<T>, u: seq<T>, p': seq<T>, u': seq<T>)
    requires p + u == p' + u' && (|p| == |p'| || |u| == |u'|)
    ensures p == p' && u == u'
  {
    assert |p + u| == |p' + u'|;
    assert p == (p + u)[..|p|] && p' == (p' + u')[..|p'|];
    assert u == (p + u)[|p|..] && u' == (p' + u')[|p'|..];
  }

  lemma {:induction false} HeadsDetermine(a: seq<Text>, u: Text, a': seq<Text>, u': Text)
    requires Clean(a) && Clean(a') && NL !in u && NL !in u'
    requires Heads(a) + u == Heads(a') + u'
    ensures a == a' && u == u'
    decreases |a|
  {
    hide Heads, BackRun, FrontRun, LineStart, LineEnd;
    LineEnds(a, u, [], []);
    LineEnds(a', u', [], []);
    SameSplit(Heads(a), u, Heads(a'), u');
    if a != [] {
      var n, n' := |a| - 1, |a'| - 1;
      LastHead(a);
      LastHead(a');
      SameSplit(Heads(a[..n]) + a[n], [NL], Heads(a'[..n']) + a'[n'], [NL]);
      HeadsDetermine(a[..n], a[n], a'[..n'], a'[n']);
      assert a == a[..n] + [a[n]] && a' == a'[..n'] + [a'[n']];
    }
  }

  lemma {:induction false} TailsDetermine(v: Text, b: seq<Text>, v': Text, b': seq<Text>)
    requires Clean(b) && Clean(b') && NL !in v && NL !in v'
    requires v + Tails(b) == v' + Tails(b')
    ensures v == v' && b == b'
    decreases |b|
  {
    hide Tails, BackRun, FrontRun, LineStart, LineEnd;
    LineEnds([], [], v, b);
    LineEnds([], [], v', b');
    SameSplit(v, Tails(b), v', Tails(b'));
    if b != [] {
      FirstTail(b);
      FirstTail(b');
      assert [NL] + (b[0] + Tails(b[1..])) == Tails(b);
      assert [NL] + (b'[0] + Tails(b'[1..])) == Tails(b');
      SameSplit([NL], b[0] + Tails(b[1..]), [NL], b'[0] + Tails(b'[1..]));
      TailsDetermine(b[0], b[1..], b'[0], b'[1..]);
      assert b == [b[0]] + b[1..] && b' == [b'[0]] + b'[1..];
    }
  }

  /** Two clean documents with the same flat text and position are the same document. */
  lemma ViewDetermines(d: Doc, d': Doc)
    requires Valid(d) && Valid(d') && Clean(d.lines) && Clean(d'.lines)
    requires View(d) == View(d')
    ensures d == d'
  {
    var a, u, v, b := Parts(d);
    var a', u', v', b' := Parts(d');
    MakeView(a, u, v, b);
    MakeView(a', u', v', b');
    HeadsDetermine(a, u, a', u');
    TailsDetermine(v, b, v', b');
  }

  // ---- each operation on a document's parts ---------------------------------------------

  lemma InsertParts(a: seq<Text>, u: Text, v: Text, b: seq<Text>, c: Scalar)
    ensures Insert(Make(a, u, v, b), c) == Make(a, u + [c], v, b)
  {
    assert (u + v)[..|u|] == u && (u + v)[|u|..] == v;
  }

  lemma NewlineParts(a: seq<Text>, u: Text, v: Text, b: seq<Text>)
    ensures Newline(Make(a, u, v, b)) == Make(a + [u], [], v, b)
  {
    assert (u + v)[..|u|] == u && (u + v)[|u|..] == v && [] + v == v;
    var ls := a + [u + v] + b;
    assert ls[..|a|] == a && ls[|a| + 1..] == b;
    assert a + [u, v] + b == a + [u] + [v] + b;
  }

  lemma BackspaceParts(a: seq<Text>, u: Text, v: Text, b: seq<Text>)
    ensures Backspace(Make(a, u, v, b)) ==
            if u != [] then Make(a, u[..|u| - 1], v, b)
            else if a != [] then Make(a[..|a| - 1], a[|a| - 1], v, b)
            else Make(a, u, v, b)
  {
    var ls := a + [u + v] + b;
    if u != [] {
      assert (u + v)[..|u| - 1] == u[..|u| - 1] && (u + v)[|u|..] == v;
    } else if a != [] {
      assert u + v == v;
      assert ls[..|a| - 1] == a[..|a| - 1] && ls[|a| + 1..] == b;
    }
  }

  lemma DeleteParts(a: seq<Text>, u: Text, v: Text, b: seq<Text>)
    ensures Delete(Make(a, u, v, b)) ==
            if v != [] then Make(a, u, v[1..], b)
            else if b != [] then Make(a, u, b[0], b[1..])
            else Make(a, u, v, b)
  {
    var ls := a + [u + v] + b;
    if v != [] {
      assert (u + v)[..|u|] == u && (u + v)[|u| + 1..] == v[1..];
    } else if b != [] {
      assert u + v == u;
      assert ls[..|a|] == a && ls[|a| + 2..] == b[1..] && ls[|a| + 1] == b[0];
    }
  }

  lemma LeftParts(a: seq<Text>, u: Text, v: Text, b: seq<Text>)
    ensures Left(Make(a, u, v, b)) ==
            if u != [] then Make(a, u[..|u| - 1], [u[|u| - 1]] + v, b)
            else if a != [] then Make(a[..|a| - 1], a[|a| - 1], [], [v] + b)
            else Make(a, u, v, b)
  {
    if u != [] {
      assert u[..|u| - 1] + ([u[|u| - 1]] + v) == u + v;
    } else if a != [] {
      assert u + v == v;
      JoinUp(a, v, b);
    }
  }

  lemma RightParts(a: seq<Text>, u: Text, v: Text, b: seq<Text>)
    ensures Right(Make(a, u, v, b)) ==
            if v != [] then Make(a, u + [v[0]], v[1..], b)
            else if b != [] then Make(a + [u], [], b[0], b[1..])
            else Make(a, u, v, b)
  {
    if v != [] {
      assert u + [v[0]] + v[1..] == u + v;
    } else if b != [] {
      assert u + v == u && [] + b[0] == b[0];
      assert a + [u] + [b[0]] + b[1..] == a + [u] + b;
    }
  }

  // ---- edits that never look for a newline: on every document ---------------------------

  lemma InsertIsFlat(d: Doc, c: Scalar)
    requires Valid(d)
    ensures Valid(Insert(d, c)) && View(Insert(d, c)) == FlatInsert(View(d), c)
    ensures Clean(d.lines) && c != NL ==> Clean(Insert(d, c).lines)
  {
    hide Insert, Make, View, Heads, Tails;
    var a, u, v, b := Parts(d);
    InsertParts(a, u, v, b, c);
    MakeView(a, u, v, b);
    MakeView(a, u + [c], v, b);
    CleanMake(a, u + [c], v, b);
  }

  lemma NewlineIsFlat(d: Doc)
    requires Valid(d)
    ensures Valid(Newline(d)) && View(Newline(d)) == FlatInsert(View(d), NL)
    ensures Clean(d.lines) ==> Clean(Newline(d).lines)
  {
    hide Newline, Make, View, Heads, Tails;
    var a, u, v, b := Parts(d);
    NewlineParts(a, u, v, b);
    MakeView(a, u, v, b);
    MakeView(a + [u], [], v, b);
    HeadsOfSnoc(a, u);
    CleanMake(a + [u], [], v, b);
  }

  lemma BackspaceIsFlat(d: Doc)
    requires Valid(d)
    ensures Valid(Backspace(d)) && View(Backspace(d)) == FlatBackspace(View(d))
    ensures Clean(d.lines) ==> Clean(Backspace(d).lines)
  {
    hide Backspace, Make, View, Heads, Tails;
    var a, u, v, b := Parts(d);
    BackspaceParts(a, u, v, b);
    MakeView(a, u, v, b);
    if u != [] {
      MakeView(a, u[..|u| - 1], v, b);
      CleanMake(a, u[..|u| - 1], v, b);
    } else if a != [] {
      MakeView(a[..|a| - 1], a[|a| - 1], v, b);
      CleanMake(a[..|a| - 1], a[|a| - 1], v, b);
      LastHead(a);
    }
  }

  lemma DeleteIsFlat(d: Doc)
    requires Valid(d)
    ensures Valid(Delete(d)) && View(Delete(d)) == FlatDelete(View(d))
    ensures Clean(d.lines) ==> Clean(Delete(d).lines)
  {
    hide Delete, Make, View, Heads, Tails;
    var a, u, v, b := Parts(d);
    DeleteParts(a, u, v, b);
    MakeView(a, u, v, b);
    if v != [] {
      MakeView(a, u, v[1..], b);
      CleanMake(a, u, v[1..], b);
    } else if b != [] {
      MakeView(a, u, b[0], b[1..]);
      CleanMake(a, u, b[0], b[1..]);
      FirstTail(b);
    }
  }

  lemma LeftIsFlat(d: Doc)
    requires Valid(d)
    ensures Valid(Left(d)) && View(Left(d)) == FlatLeft(View(d))
  {
    hide Left, Make, View, Heads, Tails;
    var a, u, v, b := Parts(d);
    LeftParts(a, u, v, b);
    MakeView(a, u, v, b);
    if u != [] {
      MakeView(a, u[..|u| - 1], [u[|u| - 1]] + v, b);
    } else if a != [] {
      MakeView(a[..|a| - 1], a[|a| - 1], [], [v] + b);
      LastHead(a);
      TailsOfCons(v, b);
    }
  }

  lemma RightIsFlat(d: Doc)
    requires Valid(d)
    ensures Valid(Right(d)) && View(Right(d)) == FlatRight(View(d))
  {
    hide Right, Make, View, Heads, Tails;
    var a, u, v, b := Parts(d);
    RightParts(a, u, v, b);
    MakeView(a, u, v, b);
    if v != [] {
      MakeView(a, u + [v[0]], v[1..], b);
    } else if b != [] {
      MakeView(a + [u], [], b[0], b[1..]);
      HeadsOfSnoc(a, u);
      FirstTail(b);
    }
  }

  // ---- edits that look for the ends of a line: on clean documents -----------------------

  lemma KillToEndIsFlat(d: Doc)
    requires Valid(d) && Clean(d.lines)
    ensures var d' := KillToEnd(d); Valid(d') && Clean(d'.lines) && View(d') == FlatKillToEnd(View(d))
  {
    var a, u, v, b := Parts(d);
    hide Make, View, Heads, Tails, FrontRun;
    KillToEndParts(a, u, v, b);
    MakeView(a, u, v, b);
    MakeView(a, u, [], b);
    CleanMake(a, u, [], b);
    LineEnds(a, u, v, b);
  }

  lemma KillToEndParts(a: seq<Text>, u: Text, v: Text, b: seq<Text>)
    ensures KillToEnd(Make(a, u, v, b)) == Make(a, u, [], b)
  {
    assert (u + v)[..|u|] == u == u + [];
  }

  lemma KillLineParts(a: seq<Text>, u: Text, v: Text, b: seq<Text>)
    ensures KillLine(Make(a, u, v, b)) == Make(a, [], [], b)
  {
    var e: Text := [];
    assert e + e == e;
  }

  lemma KillLineIsFlat(d: Doc)
    requires Valid(d) && Clean(d.lines)
    ensures var d' := KillLine(d); Valid(d') && Clean(d'.lines) && View(d') == FlatKillLine(View(d))
  {
    hide KillLine, Make, View, Heads, Tails, FrontRun, LineStart;
    var a, u, v, b := Parts(d);
    KillLineParts(a, u, v, b);
    MakeView(a, u, v, b);
    MakeView(a, [], [], b);
    CleanMake(a, [], [], b);
    LineEnds(a, u, v, b);
  }

  lemma DeleteWordParts(a: seq<Text>, u: Text, v: Text, b: seq<Text>)
    ensures DeleteWord(Make(a, u, v, b)) == Make(a, u[..|u| - WordBack(u, Space)], v, b)
  {
    hide WordBack;
    var n := |u| - WordBack(u, Space);
    assert (u + v)[..|u|] == u && (u + v)[..n] == u[..n] && (u + v)[|u|..] == v;
  }

  lemma DeleteWordIsFlat(d: Doc)
    requires Valid(d) && Clean(d.lines)
    ensures var d' := DeleteWord(d); Valid(d') && Clean(d'.lines) && View(d') == FlatDeleteWord(View(d))
  {
    hide DeleteWord, Make, View, Heads, Tails, WordBack;
    var a, u, v, b := Parts(d);
    DeleteWordParts(a, u, v, b);
    var n := |u| - WordBack(u, Space);
    MakeView(a, u, v, b);
    MakeView(a, u[..n], v, b);
    CleanMake(a, u[..n], v, b);
    WordBackLocal(Heads(a), u);
    assert (Heads(a) + u)[..|Heads(a)| + n] == Heads(a) + u[..n];
  }

  lemma DeleteWordForwardParts(a: seq<Text>, u: Text, v: Text, b: seq<Text>)
    ensures DeleteWordForward(Make(a, u, v, b)) == Make(a, u, v[Ahead(v, Space, Solid)..], b)
  {
    hide Ahead;
    var n := Ahead(v, Space, Solid);
    assert (u + v)[..|u|] == u && (u + v)[|u|..] == v && (u + v)[|u| + n..] == v[n..];
  }

  lemma DeleteWordForwardIsFlat(d: Doc)
    requires Valid(d) && Clean(d.lines)
    ensures var d' := DeleteWordForward(d);
            Valid(d') && Clean(d'.lines) && View(d') == FlatDeleteWordForward(View(d))
  {
    hide DeleteWordForward, Make, View, Heads, Tails, Ahead;
    var a, u, v, b := Parts(d);
    DeleteWordForwardParts(a, u, v, b);
    var n := Ahead(v, Space, Solid);
    MakeView(a, u, v, b);
    MakeView(a, u, v[n..], b);
    CleanMake(a, u, v[n..], b);
    AheadLocal(v, Tails(b));
    assert (v + Tails(b))[n..] == v[n..] + Tails(b);
  }

  // ---- movements ------------------------------------------------------------------------

  /** Documents with the same lines are positions in the same text. */
  lemma SameText(d: Doc, d': Doc)
    requires Valid(d) && Valid(d') && d.lines == d'.lines
    ensures |View(d').left| <= |View(d).left + View(d).right|
    ensures View(d') == View(d).Seek(|View(d').left|)
  {
    hide View, Join;
    TextIsFlat(d);
    TextIsFlat(d');
    var l, r := View(d').left, View(d').right;
    assert (l + r)[..|l|] == l && (l + r)[|l|..] == r;
  }

  lemma WordLeftIsFlat(d: Doc)
    requires Valid(d) && Clean(d.lines)
    ensures Valid(WordLeft(d)) && View(WordLeft(d)) == FlatWordLeft(View(d))
  {
    hide Make, View, Heads, Tails, WordBack, Left, FlatLeft, LineStart;
    var a, u, v, b := Parts(d);
    MakeView(a, u, v, b);
    LineEnds(a, u, v, b);
    LeftIsFlat(d);
    if u != [] {
      var n := |u| - WordBack(u, Space);
      assert (u + v)[..|u|] == u;
      SameText(d, WordLeft(d));
      Column(d, n);
      WordBackLocal(Heads(a), u);
    }
  }

  /** Where column `n` of the cursor's line is in the text. */
  lemma Column(d: Doc, n: nat)
    requires Valid(d) && n <= |d.lines[d.row]|
    ensures |View(d.(col := n)).left| == |Heads(d.lines[..d.row])| + n
  {
  }

  lemma WordRightIsFlat(d: Doc)
    requires Valid(d) && Clean(d.lines)
    ensures Valid(WordRight(d)) && View(WordRight(d)) == FlatWordRight(View(d))
  {
    hide Make, View, Heads, Tails, Ahead, Right, FlatRight, LineEnd;
    var a, u, v, b := Parts(d);
    MakeView(a, u, v, b);
    LineEnds(a, u, v, b);
    RightIsFlat(d);
    if v != [] {
      var n := Ahead(v, Solid, Space);
      assert (u + v)[|u|..] == v;
      SameText(d, WordRight(d));
      Column(d, |u| + n);
      AheadOverWord(v, Tails(b));
    }
  }

  lemma HomeIsFlat(d: Doc)
    requires Valid(d) && Clean(d.lines)
    ensures Valid(Home(d)) && View(Home(d)) == View(d).Seek(LineStart(View(d)))
  {
    hide Make, View, Heads, Tails, LineStart;
    var a, u, v, b := Parts(d);
    MakeView(a, u, v, b);
    LineEnds(a, u, v, b);
    SameText(d, Home(d));
    Column(d, 0);
  }

  lemma EndIsFlat(d: Doc)
    requires Valid(d) && Clean(d.lines)
    ensures Valid(End(d)) && View(End(d)) == View(d).Seek(LineEnd(View(d)))
  {
    hide Make, View, Heads, Tails, LineEnd;
    var a, u, v, b := Parts(d);
    MakeView(a, u, v, b);
    LineEnds(a, u, v, b);
    SameText(d, End(d));
    Column(d, |u + v|);
  }

  lemma TopIsFlat(d: Doc)
    requires Valid(d)
    ensures Valid(Top(d)) && View(Top(d)) == View(d).Seek(0)
  {
    SameText(d, Top(d));
    assert d.lines[..0] == [];
    assert View(Top(d)).left == [];
  }

  lemma BottomIsFlat(d: Doc)
    requires Valid(d)
    ensures Valid(Bottom(d)) && View(Bottom(d)) == View(d).Seek(|View(d).left + View(d).right|)
  {
    TextIsFlat(d);
    var e := Bottom(d);
    SameText(d, e);
    TextIsFlat(e);
    assert d.lines[|d.lines|..] == [];
    assert View(e).right == [];
  }

  /** Two lines of the text, one below the other. */
  lemma Neighbours(ls: seq<Text>, r: nat, j: nat, k: nat)
    requires r + 1 < |ls| && j <= |ls[r]| && k <= |ls[r + 1]|
    ensures |View(Doc(ls, r, j)).left| == |Heads(ls[..r])| + j
    ensures |View(Doc(ls, r + 1, k)).left| == |Heads(ls[..r])| + |ls[r]| + 1 + k
  {
    assert ls[..r + 1] == ls[..r] + [ls[r]];
    HeadsOfSnoc(ls[..r], ls[r]);
  }

  /** A position's line starts and ends where the document's line does. */
  lemma LineOf(d: Doc)
    requires Valid(d) && Clean(d.lines)
    ensures LineStart(View(d)) == |View(d).left| - d.col
    ensures LineEnd(View(d)) == |View(d).left| - d.col + |d.lines[d.row]|
  {
    hide Make, View, Heads, Tails, LineStart, LineEnd;
    var a, u, v, b := Parts(d);
    MakeView(a, u, v, b);
    LineEnds(a, u, v, b);
  }

  lemma UpIsFlat(d: Doc)
    requires Valid(d) && Clean(d.lines)
    ensures Valid(Up(d)) && View(Up(d)) == FlatUp(View(d))
  {
    LineOf(d);
    if d.row > 0 {
      UpFromBelow(d);
    } else {
      assert d.lines[..0] == [];
    }
  }

  lemma UpFromBelow(d: Doc)
    requires Valid(d) && Clean(d.lines) && d.row > 0
    ensures View(Up(d)) == FlatUp(View(d))
  {
    hide View, Heads, LineStart, LineEnd;
    var r := d.row - 1;
    var above := d.lines[r];
    var end := Doc(d.lines, r, |above|);
    Neighbours(d.lines, r, |above|, d.col);
    Neighbours(d.lines, r, Min(d.col, |above|), d.col);
    LineOf(d);
    LineOf(end);
    SameText(d, end);
    SameText(d, Up(d));
  }

  lemma DownIsFlat(d: Doc)
    requires Valid(d) && Clean(d.lines)
    ensures Valid(Down(d)) && View(Down(d)) == FlatDown(View(d))
  {
    LineOf(d);
    if d.row < |d.lines| - 1 {
      DownFromAbove(d);
    } else {
      assert d.lines[d.row + 1..] == [];
    }
  }

  lemma DownFromAbove(d: Doc)
    requires Valid(d) && Clean(d.lines) && d.row < |d.lines| - 1
    ensures View(Down(d)) == FlatDown(View(d))
  {
    hide View, Heads, LineStart, LineEnd;
    var below := d.lines[d.row + 1];
    var start := Doc(d.lines, d.row + 1, 0);
    Neighbours(d.lines, d.row, d.col, 0);
    Neighbours(d.lines, d.row, d.col, Min(d.col, |below|));
    LineOf(d);
    LineOf(start);
    SameText(d, start);
    SameText(d, Down(d));
  }

  // ---- every sequence of edits ----------------------------------------------------------

  datatype Edit =
    | Type(c: Scalar) | Enter | Back | Del | ClearRight | ClearLine | CutLeft | CutRight
    | GoWordLeft | GoWordRight | GoUp | GoDown | GoLeft | GoRight | GoHome | GoEnd | GoTop | GoBottom
    | Reset

  function Apply(d: Doc, e: Edit): (d': Doc)
    requires Valid(d)
    ensures Valid(d')
  {
    match e
    case Type(c) => Insert(d, c)
    case Enter => Newline(d)
    case Back => Backspace(d)
    case Del => Delete(d)
    case ClearRight => KillToEnd(d)
    case ClearLine => KillLine(d)
    case CutLeft => DeleteWord(d)
    case CutRight => DeleteWordForward(d)
    case GoWordLeft => WordLeft(d)
    case GoWordRight => WordRight(d)
    case GoUp => Up(d)
    case GoDown => Down(d)
    case GoLeft => Left(d)
    case GoRight => Right(d)
    case GoHome => Home(d)
    case GoEnd => End(d)
    case GoTop => Top(d)
    case GoBottom => Bottom(d)
    case Reset => Empty
  }

  function FlatApply(g: Flat, e: Edit): Flat {
    match e
    case Type(c) => FlatInsert(g, c)
    case Enter => FlatInsert(g, NL)
    case Back => FlatBackspace(g)
    case Del => FlatDelete(g)
    case ClearRight => FlatKillToEnd(g)
    case ClearLine => FlatKillLine(g)
    case CutLeft => FlatDeleteWord(g)
    case CutRight => FlatDeleteWordForward(g)
    case GoWordLeft => FlatWordLeft(g)
    case GoWordRight => FlatWordRight(g)
    case GoUp => FlatUp(g)
    case GoDown => FlatDown(g)
    case GoLeft => FlatLeft(g)
    case GoRight => FlatRight(g)
    case GoHome => g.Seek(LineStart(g))
    case GoEnd => g.Seek(LineEnd(g))
    case GoTop => g.Seek(0)
    case GoBottom => g.Seek(|g.left + g.right|)
    case Reset => Flat([], [])
  }

  lemma ApplyIsFlat(d: Doc, e: Edit)
    requires Valid(d) && Clean(d.lines) && e != Type(NL)
    ensures Clean(Apply(d, e).lines)
    ensures View(Apply(d, e)) == FlatApply(View(d), e)
  {
    hide View, Clean;
    match e {
      case Type(c) => InsertIsFlat(d, c);
      case Enter => NewlineIsFlat(d);
      case Back => BackspaceIsFlat(d);
      case Del => DeleteIsFlat(d);
      case ClearRight => KillToEndIsFlat(d);
      case ClearLine => KillLineIsFlat(d);
      case CutLeft => DeleteWordIsFlat(d);
      case CutRight => DeleteWordForwardIsFlat(d);
      case GoWordLeft => WordLeftIsFlat(d);
      case GoWordRight => WordRightIsFlat(d);
      case GoUp => UpIsFlat(d);
      case GoDown => DownIsFlat(d);
      case GoLeft => LeftIsFlat(d);
      case GoRight => RightIsFlat(d);
      case GoHome => HomeIsFlat(d);
      case GoEnd => EndIsFlat(d);
      case GoTop => TopIsFlat(d);
      case GoBottom => BottomIsFlat(d);
      case Reset => EmptyIsFlat();
    }
  }

  lemma EmptyIsFlat()
    ensures Valid(Empty) && Clean(Empty.lines) && View(Empty) == Flat([], [])
  {
  }

  function Run(d: Doc, es: seq<Edit>): (d': Doc)
    requires Valid(d)
    ensures Valid(d')
    decreases |es|
  {
    if es == [] then d else Run(Apply(d, es[0]), es[1..])
  }

  function FlatRun(g: Flat, es: seq<Edit>): Flat
    decreases |es|
  {
    if es == [] then g else FlatRun(FlatApply(g, es[0]), es[1..])
  }

  /** Every sequence of edits with characters other than newline is the flat sequence. */
  lemma {:induction false} RunIsFlat(d: Doc, es: seq<Edit>)
    requires Valid(d) && Clean(d.lines) && Type(NL) !in es
    ensures Clean(Run(d, es).lines)
    ensures View(Run(d, es)) == FlatRun(View(d), es)
    decreases |es|
  {
    hide View, Clean, Apply, FlatApply;
    if es != [] {
      ApplyIsFlat(d, es[0]);
      RunIsFlat(Apply(d, es[0]), es[1..]);
    }
  }

  /** A newline typed as a character leaves a line that is two lines of text: Home goes past it. */
  lemma TypedNewlineIsNotALine()
    ensures View(Home(Insert(Empty, NL))) != View(Insert(Empty, NL)).Seek(LineStart(View(Insert(Empty, NL))))
  {
    var d := Insert(Empty, NL);
    assert d.lines[0] == [NL];
    assert View(d).left == [NL];
    assert View(Home(d)).left == [];
  }
}
