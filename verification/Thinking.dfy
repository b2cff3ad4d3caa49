/**
 What a model has written so far, split into its thinking and its answer (site/js/thinking.js),
 and why the split is right at every prefix of the stream.
 */
module Thinking {
  import opened Numbers

  const OPEN: string := "<think>"
  const CLOSE: string := "</think>"

  // ---- strings --------------------------------------------------------------------------

  /** What `\s` and `trim` take as white space. */
  predicate Blank(c: char) {
    || '\t' <= c <= '\r' || c == ' ' || c == '\U{A0}' || c == '\U{1680}' || '\U{2000}' <= c <= '\U{200A}'
    || c == '\U{2028}' || c == '\U{2029}' || c == '\U{202F}' || c == '\U{205F}' || c == '\U{3000}' || c == '\U{FEFF}'
  }

  predicate AllBlank(s: string) {
    forall i :: 0 <= i < |s| ==> Blank(s[i])
  }

  function TrimStart(s: string): string {
    if s != [] && Blank(s[0]) then TrimStart(s[1..]) else s
  }

  function TrimEnd(s: string): string {
    if s != [] && Blank(s[|s| - 1]) then TrimEnd(s[..|s| - 1]) else s
  }

  function Trim(s: string): string {
    TrimEnd(TrimStart(s))
  }

  predicate OccursAt(s: string, tag: string, i: nat) {
    i + |tag| <= |s| && s[i..i + |tag|] == tag
  }

  predicate Lacks(s: string, tag: string) {
    forall i :: 0 <= i <= |s| ==> !OccursAt(s, tag, i)
  }

  /** The first place from `i` on where `tag` occurs, or -1. */
  function Find(s: string, tag: string, i: nat): (r: int)
    ensures r == -1 || (i <= r && OccursAt(s, tag, r))
    ensures forall j: nat :: i <= j && (r == -1 || j < r) ==> !OccursAt(s, tag, j)
    decreases |s| - i
  {
    if OccursAt(s, tag, i) then i
    else if i >= |s| then -1
    else Find(s, tag, i + 1)
  }

  function IndexOf(s: string, tag: string): (r: int)
    ensures r == -1 || (0 <= r && OccursAt(s, tag, r))
  {
    Find(s, tag, 0)
  }

  predicate EndsWith(s: string, t: string) {
    |t| <= |s| && s[|s| - |t|..] == t
  }

  // ---- the withheld end -----------------------------------------------------------------

  function OverlapUpTo(text: string, tag: string, n: nat): (r: nat)
    requires n <= |tag| && n <= |text|
    ensures r <= n
  {
    if n == 0 then 0 else if EndsWith(text, tag[..n]) then n else OverlapUpTo(text, tag, n - 1)
  }

  /** How much of the end of `text` is a proper start of `tag`. */
  function Overlap(text: string, tag: string): (r: nat)
    requires tag != []
    ensures r <= |text| && r < |tag|
  {
    OverlapUpTo(text, tag, if |tag| - 1 <= |text| then |tag| - 1 else |text|)
  }

  lemma {:induction false} OverlapUpToIsLongest(text: string, tag: string, n: nat)
    requires n <= |tag| && n <= |text|
    ensures EndsWith(text, tag[..OverlapUpTo(text, tag, n)])
    ensures forall m :: OverlapUpTo(text, tag, n) < m <= n ==> !EndsWith(text, tag[..m])
    decreases n
  {
    if n > 0 && !EndsWith(text, tag[..n]) {
      OverlapUpToIsLongest(text, tag, n - 1);
    }
  }

  /** It is the longest such end. */
  lemma OverlapIsLongest(text: string, tag: string)
    requires tag != []
    ensures EndsWith(text, tag[..Overlap(text, tag)])
    ensures forall m :: Overlap(text, tag) < m < |tag| ==> !EndsWith(text, tag[..m])
  {
    OverlapUpToIsLongest(text, tag, if |tag| - 1 <= |text| then |tag| - 1 else |text|);
  }

  method PartialTagAt(text: string, tag: string) returns (r: nat)
    requires tag != []
    ensures r == Overlap(text, tag)
  {
    var n: nat := if |tag| - 1 <= |text| then |tag| - 1 else |text|;
    while n > 0
      invariant n < |tag| && n <= |text|
      invariant Overlap(text, tag) == OverlapUpTo(text, tag, n)
    {
      if EndsWith(text, tag[..n]) {
        return n;
      }
      n := n - 1;
    }
    return 0;
  }

  // ---- the split ------------------------------------------------------------------------

  datatype Shown = Shown(thinking: string, answer: string, thinkingDone: bool)

  /** Text that starts like JSON or a code fence is an answer. */
  predicate LooksLikeAnswer(lead: string) {
    lead != [] && (lead[0] == '{' || lead[0] == '[' || lead[0] == '`')
  }

  /** A closing tag does not start inside an opening tag. */
  lemma TagsApart(s: string, open: int, close: int)
    requires 0 <= open < close ==> OccursAt(s, OPEN, open) && OccursAt(s, CLOSE, close)
    ensures 0 <= open < close ==> open + |OPEN| <= close
  {
    if 0 <= open < close {
      assert s[close] == s[close..close + |CLOSE|][0];
      NotInside(s, OPEN, open, close);
    }
  }

  /** Neither tag has a '<' but its first character. */
  lemma NotInside(s: string, tag: string, i: nat, m: nat)
    requires tag == OPEN || tag == CLOSE
    requires OccursAt(s, tag, i) && i < m < |s| && s[m] == '<'
    ensures i + |tag| <= m
  {
    assert forall j :: 0 < j < |tag| ==> tag[j] != '<';
    assert forall j {:trigger tag[j]} :: 0 <= j < |tag| ==> tag[j] == s[i..i + |tag|][j] == s[i + j];
  }

  datatype Cut = Cut(thinking: string, answer: string, inThought: bool)

  /** The think block and what follows it, before anything is withheld or trimmed. */
  function CutBlock(s: string, final: bool): Cut {
    var lead := TrimStart(s);
    var close := IndexOf(s, CLOSE);
    var open := IndexOf(s, OPEN);
    if close >= 0 then
      TagsApart(s, open, close);
      Cut(s[if 0 <= open < close then open + |OPEN| else 0..close], s[close + |CLOSE|..], false)
    else if OPEN <= lead then Cut(lead[|OPEN|..], [], !final)
    else if !final && lead != [] && lead <= OPEN then Cut([], [], true)
    else if !final && lead != [] && !LooksLikeAnswer(lead) then Cut(s, [], true)
    else Cut([], s, false)
  }

  function Settled(text: string): string {
    text[..|text| - Overlap(text, CLOSE)]
  }

  function Split(s: string, thinks: bool, final: bool): Shown {
    if !thinks then Shown([], TrimStart(s), true)
    else
      var c := CutBlock(s, final);
      var answer := TrimStart(c.answer);
      Shown(Trim(if c.inThought then Settled(c.thinking) else c.thinking),
            answer, final || (!c.inThought && answer != []))
  }

  method SplitThinking(s: string, thinks: bool, final: bool) returns (r: Shown)
    ensures r == Split(s, thinks, final)
  {
    hide IndexOf, Find, TrimStart, Trim, Overlap;
    if !thinks {
      return Shown([], TrimStart(s), true);
    }
    var lead := TrimStart(s);
    var thinking, answer, inThought := "", s, false;
    var close := IndexOf(s, CLOSE);
    if close >= 0 {
      var open := IndexOf(s, OPEN);
      TagsApart(s, open, close);
      thinking := s[if 0 <= open < close then open + |OPEN| else 0..close];
      answer := s[close + |CLOSE|..];
    } else if OPEN <= lead {
      thinking := lead[|OPEN|..];
      answer := "";
      inThought := !final;
    } else if !final && lead != [] && lead <= OPEN {
      answer := "";
      inThought := true;
    } else if !final && lead != [] && !LooksLikeAnswer(lead) {
      thinking := s;
      answer := "";
      inThought := true;
    }
    if inThought {
      var cut := PartialTagAt(thinking, CLOSE);
      thinking := thinking[..|thinking| - cut];
    }
    answer := TrimStart(answer);
    return Shown(Trim(thinking), answer, final || (!inThought && |answer| > 0));
  }

  // ---- where the tags are in a stream ---------------------------------------------------

  /** The closing tag does not overlap itself, so it first occurs where it was first put. */
  lemma FirstClose(x: string, a: string, k: nat)
    requires Lacks(x, CLOSE) && k <= |x + CLOSE + a|
    ensures var p := (x + CLOSE + a)[..k];
            IndexOf(p, CLOSE) == if k < |x| + |CLOSE| then -1 else |x|
  {
    var full := x + CLOSE + a;
    var p := full[..k];
    assert forall j :: 0 <= j < |x| && j < k ==> p[j] == full[j] == x[j];
    forall i: nat | i < |x|
      ensures !OccursAt(p, CLOSE, i)
    {
      if OccursAt(p, CLOSE, i) && |x| < k {
        assert p[|x|] == CLOSE[0];
        NotInside(p, CLOSE, i, |x|);
      }
      assert i + |CLOSE| <= |x| && i + |CLOSE| <= k ==> x[i..i + |CLOSE|] == p[i..i + |CLOSE|];
      assert !OccursAt(x, CLOSE, i);
    }
    if k >= |x| + |CLOSE| {
      assert full[|x|..|x| + |CLOSE|] == CLOSE;
      assert p[|x|..|x| + |CLOSE|] == full[|x|..|x| + |CLOSE|];
      assert OccursAt(p, CLOSE, |x|);
    }
  }

  // ---- trimming and withholding only ever let more through ------------------------------

  lemma {:induction false} TrimStartSkips(w: string, s: string)
    requires AllBlank(w)
    ensures TrimStart(w + s) == TrimStart(s)
    decreases |w|
  {
    if w == [] {
      assert w + s == s;
    } else {
      assert (w + s)[1..] == w[1..] + s;
      TrimStartSkips(w[1..], s);
    }
  }

  lemma {:induction false} TrimStartGrows(p: string, q: string)
    requires p <= q
    ensures TrimStart(p) <= TrimStart(q)
    decreases |q|
  {
    if p == [] || !Blank(p[0]) {
      assert TrimStart(p) == p;
    } else {
      TrimStartGrows(p[1..], q[1..]);
    }
  }

  lemma {:induction false} TrimEndGrows(p: string, q: string)
    requires p <= q
    ensures TrimEnd(p) <= TrimEnd(q)
    decreases |q|
  {
    TrimEndIsStart(p);
    if |p| < |q| && Blank(q[|q| - 1]) {
      TrimEndGrows(p, q[..|q| - 1]);
    }
    assert |p| == |q| ==> p == q;
  }

  lemma {:induction false} TrimEndIsStart(p: string)
    ensures TrimEnd(p) <= p
    decreases |p|
  {
    if p != [] && Blank(p[|p| - 1]) {
      TrimEndIsStart(p[..|p| - 1]);
    }
  }

  lemma TrimGrows(p: string, q: string)
    requires p <= q
    ensures Trim(p) <= Trim(q)
  {
    TrimStartGrows(p, q);
    TrimEndGrows(TrimStart(p), TrimStart(q));
  }

  /** How many characters of the thinking are shown when `n` characters of `t + CLOSE` are in. */
  function Visible(t: string, n: nat): (m: nat)
    requires n <= |t| + |CLOSE|
  {
    if n == |t| + |CLOSE| then |t| else n - Overlap((t + CLOSE)[..n], CLOSE)
  }

  /** No part of the closing tag is ever shown, and at most 7 characters are held back. */
  lemma VisibleIsThinking(t: string, n: nat)
    requires n <= |t| + |CLOSE|
    ensures Visible(t, n) <= |t|
    ensures n <= |t| ==> Visible(t, n) >= n - 7
  {
    var q := (t + CLOSE)[..n];
    if |t| < n < |t| + |CLOSE| {
      var j := n - |t|;
      assert q[|t|..] == CLOSE[..j];
      assert EndsWith(q, CLOSE[..j]);
      OverlapIsLongest(q, CLOSE);
    }
  }

  lemma OverlapByOne(q: string, c: char, tag: string)
    requires tag != []
    ensures Overlap(q + [c], tag) <= Overlap(q, tag) + 1
  {
    var m := Overlap(q + [c], tag);
    OverlapIsLongest(q + [c], tag);
    OverlapIsLongest(q, tag);
    if m > 0 {
      assert (q + [c])[|q| + 1 - m..] == tag[..m];
      assert q[|q| - (m - 1)..] == (q + [c])[|q| + 1 - m..][..m - 1] == tag[..m - 1];
      assert EndsWith(q, tag[..m - 1]);
    }
  }

  lemma {:induction false} VisibleGrows(t: string, n: nat, n': nat)
    requires n <= n' <= |t| + |CLOSE|
    ensures Visible(t, n) <= Visible(t, n')
    decreases n' - n
  {
    hide Overlap;
    VisibleIsThinking(t, n);
    if n < n' {
      VisibleGrows(t, n, n' - 1);
      VisibleIsThinking(t, n' - 1);
      var q := (t + CLOSE)[..n' - 1];
      OverlapByOne(q, (t + CLOSE)[n' - 1], CLOSE);
      assert (t + CLOSE)[..n'] == q + [(t + CLOSE)[n' - 1]];
    }
  }

  // ---- a stream that opens its own block ------------------------------------------------

  function Block(w: string, t: string): string {
    w + OPEN + t
  }

  lemma BlockLacksClose(w: string, t: string)
    requires AllBlank(w) && Lacks(t, CLOSE)
    ensures Lacks(Block(w, t), CLOSE)
  {
    var x := Block(w, t);
    forall i: nat | i <= |x|
      ensures !OccursAt(x, CLOSE, i)
    {
      if OccursAt(x, CLOSE, i) {
        assert x[i] == x[i..i + |CLOSE|][0] && x[i + 1] == x[i..i + |CLOSE|][1];
        var j := i - |w| - |OPEN|;
        assert j >= 0;
        assert x[i..i + |CLOSE|] == t[j..j + |CLOSE|];
        assert OccursAt(t, CLOSE, j);
      }
    }
  }

  /** Before the opening tag is complete nothing is shown. */
  lemma WhileOpening(w: string, t: string, a: string, k: nat)
    requires AllBlank(w) && Lacks(t, CLOSE) && k < |w| + |OPEN|
    ensures Split((Block(w, t) + CLOSE + a)[..k], true, false) == Shown([], [], false)
  {
    var x := Block(w, t);
    var p := (x + CLOSE + a)[..k];
    BlockLacksClose(w, t);
    FirstClose(x, a, k);
    hide IndexOf, Lacks, Overlap, OverlapUpTo;
    var j := Min(k, |w|);
    assert p == w[..j] + OPEN[..k - j];
    TrimStartSkips(w[..j], OPEN[..k - j]);
    assert TrimStart(p) == OPEN[..k - j];
  }

  /** Inside the block the thinking so far is shown, less what may be the closing tag. */
  lemma WhileThinking(w: string, t: string, a: string, k: nat)
    requires AllBlank(w) && Lacks(t, CLOSE)
    requires |w| + |OPEN| <= k < |Block(w, t)| + |CLOSE|
    ensures var n := k - |w| - |OPEN|;
            && Visible(t, n) <= |t|
            && Split((Block(w, t) + CLOSE + a)[..k], true, false) == Shown(Trim(t[..Visible(t, n)]), [], false)
  {
    hide IndexOf, Find, Lacks, Overlap, Trim, TrimStart, CutBlock, OccursAt, Settled;
    var x := Block(w, t);
    var n := k - |w| - |OPEN|;
    var p := (x + CLOSE + a)[..k];
    BlockLacksClose(w, t);
    FirstClose(x, a, k);
    var q := (t + CLOSE)[..n];
    assert p == w + (OPEN + q);
    TrimStartSkips(w, OPEN + q);
    CutOpened(p, q);
    EmptyTrims();
    SettledPrefix(t, n);
  }

  lemma CutOpened(s: string, q: string)
    requires IndexOf(s, CLOSE) == -1 && TrimStart(s) == TrimStart(OPEN + q)
    ensures CutBlock(s, false) == Cut(q, [], true)
  {
    assert TrimStart(OPEN + q) == OPEN + q;
    hide IndexOf, TrimStart;
    assert (OPEN + q)[|OPEN|..] == q;
  }

  /** Where the opening tag is, once the block is closed. */
  lemma OpenComesFirst(w: string, rest: string)
    requires AllBlank(w)
    ensures IndexOf(w + OPEN + rest, OPEN) == |w|
  {
    var s := w + OPEN + rest;
    assert s[|w|..|w| + |OPEN|] == OPEN;
    assert OccursAt(s, OPEN, |w|);
    forall i: nat | i < |w|
      ensures !OccursAt(s, OPEN, i)
    {
      assert s[i] == w[i];
      assert i + |OPEN| <= |s| ==> s[i..i + |OPEN|][0] == s[i];
    }
  }

  /** After the block the thinking is all of it, and the answer is what has come since. */
  lemma WhileAnswering(w: string, t: string, a: string, k: nat, final: bool)
    requires AllBlank(w) && Lacks(t, CLOSE)
    requires |Block(w, t)| + |CLOSE| <= k <= |Block(w, t) + CLOSE + a|
    ensures var answer := TrimStart(a[..k - |Block(w, t)| - |CLOSE|]);
            Split((Block(w, t) + CLOSE + a)[..k], true, final) == Shown(Trim(t), answer, final || answer != [])
  {
    hide IndexOf, Find, Lacks, Overlap, Trim, TrimStart, OccursAt, CutBlock;
    var x := Block(w, t);
    var p := (x + CLOSE + a)[..k];
    BlockLacksClose(w, t);
    FirstClose(x, a, k);
    var b := a[..k - |x| - |CLOSE|];
    assert p == w + OPEN + (t + CLOSE + b) == x + CLOSE + b;
    OpenComesFirst(w, t + CLOSE + b);
    CutClosed(w, t, b, final);
  }

  lemma CutClosed(w: string, t: string, b: string, final: bool)
    requires IndexOf(Block(w, t) + CLOSE + b, CLOSE) == |Block(w, t)|
    requires IndexOf(Block(w, t) + CLOSE + b, OPEN) == |w|
    ensures CutBlock(Block(w, t) + CLOSE + b, final) == Cut(t, b, false)
  {
    hide IndexOf, TrimStart;
    var s := Block(w, t) + CLOSE + b;
    var n := |Block(w, t)|;
    assert s[|w| + |OPEN|..n] == t;
    assert s[n + |CLOSE|..] == b;
  }

  /** What is shown at every prefix of a stream that opens its own block. */
  lemma EveryPrefix(w: string, t: string, a: string, k: nat)
    requires AllBlank(w) && Lacks(t, CLOSE) && k <= |Block(w, t) + CLOSE + a|
    ensures var r := Split((Block(w, t) + CLOSE + a)[..k], true, false);
            var n := if k < |w| + |OPEN| then 0 else Min(k - |w| - |OPEN|, |t| + |CLOSE|);
            var m := if k < |Block(w, t)| + |CLOSE| then 0 else k - |Block(w, t)| - |CLOSE|;
            && Visible(t, n) <= |t|
            && r.thinking == Trim(t[..Visible(t, n)])
            && r.answer == TrimStart(a[..m])
            && r.thinkingDone == (r.answer != [])
  {
    hide Split, Lacks, AllBlank;
    VisibleIsThinking(t, 0);
    if k < |w| + |OPEN| {
      WhileOpening(w, t, a, k);
      assert t[..Visible(t, 0)] == [];
    } else if k < |Block(w, t)| + |CLOSE| {
      WhileThinking(w, t, a, k);
    } else {
      WhileAnswering(w, t, a, k, false);
      assert t[..|t|] == t;
    }
  }

  /** The shown thinking and the shown answer only ever grow. */
  lemma OnlyGrows(w: string, t: string, a: string, k: nat, k': nat)
    requires AllBlank(w) && Lacks(t, CLOSE) && k <= k' <= |Block(w, t) + CLOSE + a|
    ensures var full := Block(w, t) + CLOSE + a;
            && Split(full[..k], true, false).thinking <= Split(full[..k'], true, false).thinking
            && Split(full[..k], true, false).answer <= Split(full[..k'], true, false).answer
  {
    hide Split, Lacks, AllBlank, Visible, Trim, TrimStart;
    EveryPrefix(w, t, a, k);
    EveryPrefix(w, t, a, k');
    var n := if k < |w| + |OPEN| then 0 else Min(k - |w| - |OPEN|, |t| + |CLOSE|);
    var n' := if k' < |w| + |OPEN| then 0 else Min(k' - |w| - |OPEN|, |t| + |CLOSE|);
    VisibleGrows(t, n, n');
    TrimGrows(t[..Visible(t, n)], t[..Visible(t, n')]);
    var m := if k < |Block(w, t)| + |CLOSE| then 0 else k - |Block(w, t)| - |CLOSE|;
    var m' := if k' < |Block(w, t)| + |CLOSE| then 0 else k' - |Block(w, t)| - |CLOSE|;
    TrimStartGrows(a[..m], a[..m']);
  }

  /** The finished text splits exactly. */
  lemma FinalSplit(w: string, t: string, a: string)
    requires AllBlank(w) && Lacks(t, CLOSE)
    ensures Split(Block(w, t) + CLOSE + a, true, true) == Shown(Trim(t), TrimStart(a), true)
  {
    hide Split, Lacks, AllBlank, Trim, TrimStart;
    var full := Block(w, t) + CLOSE + a;
    WhileAnswering(w, t, a, |full|, true);
    assert full[..|full|] == full && a[..|a|] == a;
  }

  // ---- a stream whose block was opened in the prompt ------------------------------------

  lemma {:induction false} TrimStartThrough(t: string, s: string)
    ensures TrimStart(t) != [] ==> TrimStart(t + s) == TrimStart(t) + s
    ensures TrimStart(t) == [] ==> AllBlank(t) && TrimStart(t + s) == TrimStart(s)
    decreases |t|
  {
    if t == [] {
      assert t + s == s;
    } else if Blank(t[0]) {
      assert (t + s)[1..] == t[1..] + s;
      TrimStartThrough(t[1..], s);
      assert t == [t[0]] + t[1..];
    }
  }

  /** Left trimming takes a blank start away and nothing else. */
  lemma {:induction false} TrimStartIsEnd(s: string)
    ensures EndsWith(s, TrimStart(s)) && AllBlank(s[..|s| - |TrimStart(s)|])
    ensures TrimStart(s) != [] ==> !Blank(TrimStart(s)[0])
    decreases |s|
  {
    hide Blank;
    if s != [] && Blank(s[0]) {
      var u := s[1..];
      TrimStartIsEnd(u);
      var n := |u| - |TrimStart(u)|;
      assert s[..n + 1] == [s[0]] + u[..n];
      assert s[n + 1..] == u[n..];
    } else {
      assert s[..0] == [] && s[0..] == s;
    }
  }

  lemma BareLacksOpen(t: string, a: string, k: nat)
    requires Lacks(t, OPEN) && k <= |t + CLOSE + a|
    ensures var p := (t + CLOSE + a)[..k];
            forall i: nat :: OccursAt(p, OPEN, i) ==> i > |t|
  {
    var full := t + CLOSE + a;
    var p := full[..k];
    assert forall j :: 0 <= j < |t| && j < k ==> p[j] == full[j] == t[j];
    forall i: nat | i <= |t|
      ensures !OccursAt(p, OPEN, i)
    {
      if OccursAt(p, OPEN, i) {
        assert p[i..i + |OPEN|][0] == p[i] && p[i..i + |OPEN|][1] == p[i + 1];
        if i < |t| < k {
          assert p[|t|] == '<';
          NotInside(p, OPEN, i, |t|);
        }
      }
      assert i + |OPEN| <= |t| && i + |OPEN| <= k ==> t[i..i + |OPEN|] == p[i..i + |OPEN|];
      assert !OccursAt(t, OPEN, i);
    }
  }

  lemma LeadLacksOpen(t: string, a: string, k: nat)
    requires Lacks(t, OPEN) && k < |t| + |CLOSE|
    ensures !(OPEN <= TrimStart((t + CLOSE + a)[..k]))
  {
    var p := (t + CLOSE + a)[..k];
    BareLacksOpen(t, a, k);
    TrimStartIsEnd(p);
    hide TrimStart, Lacks;
    StartsAt(p, OPEN, |p| - |TrimStart(p)|);
  }

  lemma StartsAt(s: string, tag: string, i: nat)
    requires i <= |s|
    ensures tag <= s[i..] <==> OccursAt(s, tag, i)
  {
    if i + |tag| <= |s| {
      assert s[i..][..|tag|] == s[i..i + |tag|];
    }
  }

  lemma CutBare(s: string)
    requires IndexOf(s, CLOSE) == -1 && !(OPEN <= TrimStart(s)) && !LooksLikeAnswer(TrimStart(s))
    ensures CutBlock(s, false) ==
            if TrimStart(s) == [] then Cut([], s, false)
            else if TrimStart(s) <= OPEN then Cut([], [], true)
            else Cut(s, [], true)
  {
    hide TrimStart, IndexOf, LooksLikeAnswer;
  }

  lemma EmptyTrims()
    ensures Trim([]) == [] && TrimStart([]) == [] && Settled([]) == []
  {
  }

  /** How much of a bare stream's thinking is shown. */
  function BareVisible(t: string, k: nat): (m: nat)
    requires k <= |t| + |CLOSE|
  {
    var lead := TrimStart((t + CLOSE)[..k]);
    if k < |t| + |CLOSE| && lead <= OPEN then 0 else Visible(t, k)
  }

  lemma BareLead(t: string, k: nat)
    requires !LooksLikeAnswer(TrimStart(t)) && k <= |t| + |CLOSE|
    ensures !LooksLikeAnswer(TrimStart((t + CLOSE)[..k]))
  {
    hide TrimStart;
    TrimStartThrough(t, CLOSE);
    TrimStartGrows((t + CLOSE)[..k], t + CLOSE);
    CloseIsTrim();
  }

  lemma CloseIsTrim()
    ensures TrimStart(CLOSE) == CLOSE
  {
  }

  lemma WhileThinkingBare(t: string, a: string, k: nat)
    requires Lacks(t, CLOSE) && Lacks(t, OPEN) && !LooksLikeAnswer(TrimStart(t))
    requires k < |t| + |CLOSE|
    ensures BareVisible(t, k) <= |t|
    ensures Split((t + CLOSE + a)[..k], true, false) == Shown(Trim(t[..BareVisible(t, k)]), [], false)
  {
    hide IndexOf, Find, Lacks, Overlap, LooksLikeAnswer, OccursAt, TrimStart, Trim, CutBlock, Settled;
    var p := (t + CLOSE + a)[..k];
    assert p == (t + CLOSE)[..k];
    FirstClose(t, a, k);
    LeadLacksOpen(t, a, k);
    BareLead(t, k);
    VisibleIsThinking(t, k);
    CutBare(p);
    EmptyTrims();
    if TrimStart(p) <= OPEN {
      assert t[..0] == [];
    } else {
      SettledPrefix(t, k);
    }
  }

  lemma SettledPrefix(t: string, k: nat)
    requires k < |t| + |CLOSE|
    ensures Visible(t, k) <= |t| && Settled((t + CLOSE)[..k]) == t[..Visible(t, k)]
  {
    VisibleIsThinking(t, k);
  }

  lemma WhileAnsweringBare(t: string, a: string, k: nat, final: bool)
    requires Lacks(t, CLOSE) && Lacks(t, OPEN)
    requires |t| + |CLOSE| <= k <= |t + CLOSE + a|
    ensures var answer := TrimStart(a[..k - |t| - |CLOSE|]);
            Split((t + CLOSE + a)[..k], true, final) == Shown(Trim(t), answer, final || answer != [])
  {
    var p := (t + CLOSE + a)[..k];
    FirstClose(t, a, k);
    BareLacksOpen(t, a, k);
    hide IndexOf, Lacks, Overlap, Trim, TrimStart;
    assert p[..|t|] == t == p[0..|t|];
    assert p[|t| + |CLOSE|..] == a[..k - |t| - |CLOSE|];
  }

  lemma BareVisibleGrows(t: string, k: nat, k': nat)
    requires k <= k' <= |t| + |CLOSE|
    ensures BareVisible(t, k) <= BareVisible(t, k') <= |t|
  {
    VisibleGrows(t, k, k');
    VisibleIsThinking(t, k');
    hide Visible;
    TrimStartGrows((t + CLOSE)[..k], (t + CLOSE)[..k']);
  }

  /** What is shown at every prefix of a stream that starts mid-thought; it only grows. */
  lemma EveryBarePrefix(t: string, a: string, k: nat)
    requires Lacks(t, CLOSE) && Lacks(t, OPEN)
    requires TrimStart(t) == "" || TrimStart(t)[0] !in "{[`"
    requires k <= |t + CLOSE + a|
    ensures var r := Split((t + CLOSE + a)[..k], true, false);
            var n := Min(k, |t| + |CLOSE|);
            && BareVisible(t, n) <= |t|
            && r.thinking == Trim(t[..BareVisible(t, n)])
            && r.answer == TrimStart(a[..k - n])
            && r.thinkingDone == (r.answer != [])
  {
    assert !LooksLikeAnswer(TrimStart(t));
    hide Split, Lacks;
    if k < |t| + |CLOSE| {
      WhileThinkingBare(t, a, k);
    } else {
      WhileAnsweringBare(t, a, k, false);
      assert t[..|t|] == t;
    }
  }

  lemma BareOnlyGrows(t: string, a: string, k: nat, k': nat)
    requires Lacks(t, CLOSE) && Lacks(t, OPEN)
    requires TrimStart(t) == "" || TrimStart(t)[0] !in "{[`"
    requires k <= k' <= |t + CLOSE + a|
    ensures var full := t + CLOSE + a;
            && Split(full[..k], true, false).thinking <= Split(full[..k'], true, false).thinking
            && Split(full[..k], true, false).answer <= Split(full[..k'], true, false).answer
  {
    hide Split, Lacks, BareVisible, Trim, TrimStart, LooksLikeAnswer;
    EveryBarePrefix(t, a, k);
    EveryBarePrefix(t, a, k');
    var n, n' := Min(k, |t| + |CLOSE|), Min(k', |t| + |CLOSE|);
    BareVisibleGrows(t, n, n');
    TrimGrows(t[..BareVisible(t, n)], t[..BareVisible(t, n')]);
    TrimStartGrows(a[..k - n], a[..k' - n']);
  }

  /** Text that starts like an answer is all answer, at every prefix, while it has no closing tag. */
  lemma AnswerOnly(s: string, k: nat, final: bool)
    requires Lacks(s, CLOSE) && TrimStart(s) != "" && TrimStart(s)[0] in "{[`" && k <= |s|
    ensures var r := Split(s[..k], true, final);
            r.thinking == [] && r.answer == TrimStart(s[..k]) && r.thinkingDone == (final || r.answer != [])
  {
    assert LooksLikeAnswer(TrimStart(s));
    var p := s[..k];
    NoClose(s, k);
    TrimStartGrows(p, s);
    EmptyTrims();
    CutAnswer(p, final);
    hide IndexOf, Find, Lacks, Overlap, OccursAt, TrimStart, Trim, CutBlock;
  }

  lemma CutAnswer(s: string, final: bool)
    requires IndexOf(s, CLOSE) == -1 && (TrimStart(s) == [] || LooksLikeAnswer(TrimStart(s)))
    ensures CutBlock(s, final) == Cut([], s, false)
  {
    hide TrimStart, IndexOf;
  }

  lemma NoClose(s: string, k: nat)
    requires Lacks(s, CLOSE) && k <= |s|
    ensures IndexOf(s[..k], CLOSE) == -1
  {
    var p := s[..k];
    forall i: nat | i <= |p| ensures !OccursAt(p, CLOSE, i) {
      assert i + |CLOSE| <= |p| ==> p[i..i + |CLOSE|] == s[i..i + |CLOSE|];
      assert !OccursAt(s, CLOSE, i);
    }
  }

  // ---- trimming, and text that is complete ----------------------------------------------

  /** What is trimmed off is blank, and what is left does not start with a blank. */
  lemma {:induction false} TrimStartIs(s: string)
    ensures var t := TrimStart(s);
            |t| <= |s| && s[|s| - |t|..] == t && AllBlank(s[..|s| - |t|]) && (t != [] ==> !Blank(t[0]))
    decreases |s|
  {
    if s != [] && Blank(s[0]) {
      TrimStartIs(s[1..]);
      var t := TrimStart(s);
      assert s[1..][..|s| - 1 - |t|] == s[1..|s| - |t|];
      assert s[..|s| - |t|] == [s[0]] + s[1..|s| - |t|];
    }
  }

  lemma {:induction false} TrimEndIs(s: string)
    ensures var t := TrimEnd(s);
            |t| <= |s| && s[..|t|] == t && AllBlank(s[|t|..]) && (t != [] ==> !Blank(t[|t| - 1]))
    decreases |s|
  {
    if s != [] && Blank(s[|s| - 1]) {
      var n := |s| - 1;
      TrimEndIs(s[..n]);
      var t := TrimEnd(s);
      assert s[..n][..|t|] == s[..|t|];
      assert s[|t|..] == s[..n][|t|..] + [s[n]];
    }
  }

  /** The same at both ends. */
  lemma TrimIs(s: string) returns (b: string, e: string)
    ensures s == b + Trim(s) + e && AllBlank(b) && AllBlank(e)
    ensures Trim(s) != [] ==> !Blank(Trim(s)[0]) && !Blank(Trim(s)[|Trim(s)| - 1])
  {
    TrimStartIs(s);
    var m := TrimStart(s);
    TrimEndIs(m);
    b, e := s[..|s| - |m|], m[|Trim(s)|..];
    assert s == b + m && m == Trim(s) + e;
    assert b + (Trim(s) + e) == b + Trim(s) + e;
  }

  /** A model that does not think: everything is the answer, less the blanks before it. */
  lemma WithoutThinking(s: string, final: bool)
    ensures var r := Split(s, false, final);
            && r.thinking == [] && r.thinkingDone
            && EndsWith(s, r.answer) && AllBlank(s[..|s| - |r.answer|]) && (r.answer != [] ==> !Blank(r.answer[0]))
  {
    TrimStartIs(s);
  }

  /** A finished text whose block was never closed is all thinking. */
  lemma NeverClosed(w: string, t: string)
    requires AllBlank(w) && Lacks(t, CLOSE)
    ensures Split(Block(w, t), true, true) == Shown(Trim(t), [], true)
  {
    var x := Block(w, t);
    BlockLacksClose(w, t);
    assert IndexOf(x, CLOSE) == -1;
    assert x == w + (OPEN + t);
    TrimStartSkips(w, OPEN + t);
    assert TrimStart(OPEN + t) == OPEN + t;
    EmptyTrims();
    hide IndexOf, Lacks, TrimStart, Trim, AllBlank, Overlap;
    assert (OPEN + t)[|OPEN|..] == t;
  }

  /** A finished text without a block is all answer. */
  lemma NeverOpened(s: string)
    requires Lacks(s, CLOSE) && !(OPEN <= TrimStart(s))
    ensures Split(s, true, true) == Shown([], TrimStart(s), true)
  {
    assert IndexOf(s, CLOSE) == -1;
    EmptyTrims();
    hide IndexOf, Lacks, TrimStart, Trim, Overlap;
  }

  lemma PrefixLacks(s: string, tag: string, n: nat)
    requires n <= |s| && forall j: nat :: j < n ==> !OccursAt(s, tag, j)
    requires tag != []
    ensures Lacks(s[..n], tag)
  {
    forall j: nat | j <= n ensures !OccursAt(s[..n], tag, j) {
      if OccursAt(s[..n], tag, j) {
        assert s[..n][j..j + |tag|] == s[j..j + |tag|];
        assert OccursAt(s, tag, j);
      }
    }
  }

  lemma IndexBelow(s: string, tag: string, j: nat)
    requires IndexOf(s, tag) == -1 || j < IndexOf(s, tag)
    ensures !OccursAt(s, tag, j)
  {
  }

  /**
   Every finished text that closes a block: its thinking is what lies between the first closing
   tag and the first opening tag, if that comes before, and its answer is all that follows.
   */
  lemma FinishedText(s: string) returns (pre: string, t: string, a: string)
    requires !Lacks(s, CLOSE)
    ensures s == pre + t + CLOSE + a && Lacks(pre + t, CLOSE)
    ensures (pre == [] && Lacks(t, OPEN)) || (EndsWith(pre, OPEN) && Lacks(pre[..|pre| - |OPEN|], OPEN))
    ensures Split(s, true, true) == Shown(Trim(t), TrimStart(a), true)
  {
    var close, open := IndexOf(s, CLOSE), IndexOf(s, OPEN);
    TagsApart(s, open, close);
    var n := if 0 <= open < close then open + |OPEN| else 0;
    pre, t, a := s[..n], s[n..close], s[close + |CLOSE|..];
    assert s == pre + t + CLOSE + a by {
      assert s[close..close + |CLOSE|] == CLOSE;
      assert pre + t == s[..close];
    }
    forall j: nat | j < close ensures !OccursAt(s, CLOSE, j) {
      IndexBelow(s, CLOSE, j);
    }
    PrefixLacks(s, CLOSE, close);
    assert pre + t == s[..close];
    forall j: nat | open < 0 || j < open ensures !OccursAt(s, OPEN, j) {
      IndexBelow(s, OPEN, j);
    }
    hide IndexOf, Lacks, Trim, TrimStart, OccursAt, Overlap;
    if 0 <= open < close {
      PrefixLacks(s, OPEN, open);
      OccursThere(s, OPEN, open);
      assert pre[..|pre| - |OPEN|] == s[..open] && pre[|pre| - |OPEN|..] == OPEN;
    } else {
      PrefixLacks(s, OPEN, close);
      assert t == s[..close];
    }
  }

  lemma OccursThere(s: string, tag: string, i: nat)
    requires OccursAt(s, tag, i)
    ensures i + |tag| <= |s| && s[i..i + |tag|] == tag
  {
  }
}
