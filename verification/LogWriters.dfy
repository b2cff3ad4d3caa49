/**
 Many writers, clones of one `RotatingFileWriter`, behind one lock. A writer takes the lock
 for one call; while it holds it, each `write` on the file is a step of its own, so any
 interleaving of the writers' attempts is a sequence of these events.
 */
module LogWriters {
  import opened Wrappers
  import opened Numbers
  import opened RotatingLog

  /** `write_all` (and `write_fmt`, which formats first) of a record, or a single `write`. */
  datatype Job = Whole(buf: seq<Byte>) | Once(buf: seq<Byte>)

  datatype Turn = Turn(writer: nat, job: Job, taken: nat, done: bool, ok: bool)

  /** `turns` lists the calls in the order in which they got the lock. */
  datatype System = System(log: Log, holder: Option<nat>, turns: seq<Turn>)

  datatype Event = Locks(writer: nat, job: Job) | Asks(writer: nat, answer: Answer)

  predicate Open(s: System) {
    |s.turns| > 0 && !s.turns[|s.turns| - 1].done
  }

  predicate Enabled(s: System, ev: Event) {
    match ev
    case Locks(_, _) => s.holder.None?
    case Asks(w, _) => s.holder == Some(w) && Open(s) && s.turns[|s.turns| - 1].taken <= |s.turns[|s.turns| - 1].job.buf|
  }

  /** The turn that is running becomes `t`; the lock goes back when that is done. */
  function Proceed(s: System, log: Log, t: Turn): System
    requires |s.turns| > 0
  {
    System(log, if t.done then None else s.holder, s.turns[..|s.turns| - 1] + [t])
  }

  function Step(s: System, ev: Event): System
    requires Enabled(s, ev)
  {
    match ev
    case Locks(w, job) => System(s.log, Some(w), s.turns + [Turn(w, job, 0, false, false)])
    case Asks(w, answer) =>
      var t := s.turns[|s.turns| - 1];
      var left := t.job.buf[t.taken..];
      if t.job.Whole? && left == [] then Proceed(s, s.log, t.(done := true, ok := true))
      else
        match answer
        case Broken => Proceed(s, Rolled(s.log), t.(done := true))
        case Interrupted => Proceed(s, Rolled(s.log), t.(done := t.job.Once?))
        case Wrote(n) =>
          var m := Min(n, |left|);
          var log := Appended(s.log, left[..m]);
          if t.job.Once? then Proceed(s, log, t.(taken := t.taken + m, done := true, ok := true))
          else Proceed(s, log, t.(taken := t.taken + m, done := m == 0))
  }

  function Taken(t: Turn): seq<Byte>
    requires t.taken <= |t.job.buf|
  {
    t.job.buf[..t.taken]
  }

  predicate TurnOk(t: Turn) {
    t.taken <= |t.job.buf| && (t.ok ==> t.done) && (t.job.Whole? && t.ok ==> t.taken == |t.job.buf|)
  }

  /** The bytes taken in all turns, in lock order. */
  function Stream(turns: seq<Turn>): seq<Byte>
    requires forall i :: 0 <= i < |turns| ==> TurnOk(turns[i])
  {
    if turns == [] then [] else
      var last := turns[|turns| - 1];
      assert TurnOk(last);
      Stream(turns[..|turns| - 1]) + Taken(last)
  }

  /** Only the last turn can be running, and then its writer holds the lock. */
  predicate LockOk(s: System) {
    && (forall i :: 0 <= i < |s.turns| - 1 ==> s.turns[i].done)
    && (s.holder.Some? <==> Open(s))
    && (s.holder.Some? ==> s.turns[|s.turns| - 1].writer == s.holder.value)
  }

  predicate Inv(s: System, start: seq<Byte>) {
    && Valid(s.log)
    && LockOk(s)
    && (forall i :: 0 <= i < |s.turns| ==> TurnOk(s.turns[i]))
    && SuffixOf(History(s.log), start + Stream(s.turns))
  }

  lemma ProceedKeeps(s: System, log: Log, t: Turn, more: seq<Byte>, start: seq<Byte>)
    requires Inv(s, start) && Open(s) && Valid(log) && TurnOk(t)
    requires var last := s.turns[|s.turns| - 1];
             t.writer == last.writer && t.job == last.job && last.taken <= t.taken && Taken(t) == Taken(last) + more
    requires SuffixOf(History(log), start + Stream(s.turns) + more)
    ensures Inv(Proceed(s, log, t), start)
  {
    var u := Proceed(s, log, t);
    var n := |s.turns| - 1;
    assert u.turns[..n] == s.turns[..n];
    assert Stream(u.turns) == Stream(s.turns) + more;
    assert start + Stream(s.turns) + more == start + Stream(u.turns);
  }

  lemma AskKeeps(s: System, w: nat, answer: Answer, start: seq<Byte>)
    requires Inv(s, start) && Enabled(s, Asks(w, answer))
    ensures Inv(Step(s, Asks(w, answer)), start)
  {
    hide History, Rolled, Appended, SuffixOf, Stream;
    var t := s.turns[|s.turns| - 1];
    var left := t.job.buf[t.taken..];
    var all := start + Stream(s.turns);
    assert TurnOk(t);
    WritesKeepCount(s.log, if answer.Wrote? then left[..Min(answer.n, |left|)] else []);
    assert all + [] == all;
    RolledHistory(s.log);
    SuffixTrans(History(Rolled(s.log)), History(s.log), all);
    if t.job.Whole? && left == [] {
      ProceedKeeps(s, s.log, t.(done := true, ok := true), [], start);
    } else if answer.Wrote? {
      var m := Min(answer.n, |left|);
      AppendedHistory(s.log, left[..m], all);
      assert t.job.buf[..t.taken + m] == t.job.buf[..t.taken] + left[..m];
      if t.job.Once? {
        ProceedKeeps(s, Appended(s.log, left[..m]), t.(taken := t.taken + m, done := true, ok := true), left[..m], start);
      } else {
        ProceedKeeps(s, Appended(s.log, left[..m]), t.(taken := t.taken + m, done := m == 0), left[..m], start);
      }
    } else {
      ProceedKeeps(s, Rolled(s.log), t.(done := answer.Broken? || t.job.Once?), [], start);
    }
  }

  lemma StepKeeps(s: System, ev: Event, start: seq<Byte>)
    requires Inv(s, start) && Enabled(s, ev)
    ensures Inv(Step(s, ev), start)
  {
    match ev
    case Locks(w, job) =>
      var u := Step(s, ev);
      assert u.turns[..|u.turns| - 1] == s.turns;
      assert Stream(u.turns) == Stream(s.turns) + [];
    case Asks(w, answer) => AskKeeps(s, w, answer, start);
  }

  /** The state after any run of events; an event that cannot happen is passed over. */
  function Run(s: System, evs: seq<Event>): System
    decreases |evs|
  {
    if evs == [] then s else Run(if Enabled(s, evs[0]) then Step(s, evs[0]) else s, evs[1..])
  }

  lemma {:induction false} RunKeeps(s: System, evs: seq<Event>, start: seq<Byte>)
    requires Inv(s, start)
    ensures Inv(Run(s, evs), start)
    decreases |evs|
  {
    if evs != [] {
      if Enabled(s, evs[0]) {
        StepKeeps(s, evs[0], start);
        RunKeeps(Step(s, evs[0]), evs[1..], start);
      } else {
        RunKeeps(s, evs[1..], start);
      }
    }
  }

  /**
   However the writers interleave, what is on disk is the end of what was there at the start
   followed by the accepted bytes in lock order, whatever slots were empty.
   */
  lemma EveryInterleaving(maxBytes: nat, rotated: seq<Slot>, existing: Slot, evs: seq<Event>)
    ensures var l := Opened(maxBytes, rotated, existing);
            Inv(Run(System(l, None, []), evs), History(l))
  {
    var l := Opened(maxBytes, rotated, existing);
    assert History(l) + [] == History(l);
    RunKeeps(System(l, None, []), evs, History(l));
  }

  function StreamLength(turns: seq<Turn>): nat {
    if turns == [] then 0 else StreamLength(turns[..|turns| - 1]) + turns[|turns| - 1].taken
  }

  /** A record reported as written lies in the stream in one piece, right behind the earlier turns. */
  lemma {:induction false} RecordsAreWhole(turns: seq<Turn>, i: nat)
    requires forall j :: 0 <= j < |turns| ==> TurnOk(turns[j])
    requires i < |turns| && turns[i].job.Whole? && turns[i].done && turns[i].ok
    ensures var at := StreamLength(turns[..i]);
            && at + |turns[i].job.buf| <= |Stream(turns)|
            && Stream(turns)[at..at + |turns[i].job.buf|] == turns[i].job.buf
    decreases |turns|
  {
    var n := |turns| - 1;
    StreamIsLong(turns[..n]);
    if i < n {
      RecordsAreWhole(turns[..n], i);
      assert turns[..n][..i] == turns[..i];
    } else {
      assert Taken(turns[n]) == turns[n].job.buf;
    }
  }

  lemma {:induction false} StreamIsLong(turns: seq<Turn>)
    requires forall j :: 0 <= j < |turns| ==> TurnOk(turns[j])
    ensures |Stream(turns)| == StreamLength(turns)
    decreases |turns|
  {
    if turns != [] {
      StreamIsLong(turns[..|turns| - 1]);
    }
  }

  // ---- one turn is one `write_all` ------------------------------------------------------

  function AsksAll(w: nat, answers: seq<Answer>): (evs: seq<Event>)
    ensures |evs| == |answers| && forall i :: 0 <= i < |evs| ==> evs[i] == Asks(w, answers[i])
  {
    seq(|answers|, i requires 0 <= i < |answers| => Asks(w, answers[i]))
  }

  lemma {:induction false} NoTurnNoChange(s: System, w: nat, answers: seq<Answer>)
    requires s.holder.None?
    ensures Run(s, AsksAll(w, answers)) == s
    decreases |answers|
  {
    if answers != [] {
      assert AsksAll(w, answers)[1..] == AsksAll(w, answers[1..]);
      NoTurnNoChange(s, w, answers[1..]);
    }
  }

  /** The running turn is one for a whole record. */
  predicate RunsWhole(s: System, w: nat) {
    s.holder == Some(w) && Open(s) && var t := s.turns[|s.turns| - 1]; t.job.Whole? && TurnOk(t)
  }

  /** A whole record's turn that has come to its end did what `WriteAll` does with what was left of it. */
  lemma {:induction false} TurnIsWriteAll(s: System, w: nat, answers: seq<Answer>)
    requires RunsWhole(s, w)
    ensures var (t, u) := (s.turns[|s.turns| - 1], Run(s, AsksAll(w, answers)));
            && |u.turns| == |s.turns|
            && (!Open(u) ==>
                  var (end, r) := (u.turns[|s.turns| - 1], WriteAll(s.log, t.job.buf[t.taken..], answers));
                  u.log == r.log && end == t.(taken := t.taken + r.taken, done := true, ok := r.ok))
    decreases |answers|
  {
    if answers != [] {
      var s' := Step(s, Asks(w, answers[0]));
      assert AsksAll(w, answers)[1..] == AsksAll(w, answers[1..]);
      WholeStep(s, w, answers);
      hide WriteAll, Step;
      if Open(s') {
        TurnIsWriteAll(s', w, answers[1..]);
      } else {
        NoTurnNoChange(s', w, answers[1..]);
      }
    }
  }

  /** One step of it, against one turn of `WriteAll`'s loop. */
  lemma WholeStep(s: System, w: nat, answers: seq<Answer>)
    requires RunsWhole(s, w) && answers != []
    ensures var (t, s') := (s.turns[|s.turns| - 1], Step(s, Asks(w, answers[0])));
            var (t', r) := (s'.turns[|s'.turns| - 1], WriteAll(s.log, t.job.buf[t.taken..], answers));
            && |s'.turns| == |s.turns|
            && (Open(s') ==>
                  && RunsWhole(s', w) && t' == t.(taken := t'.taken)
                  && var r' := WriteAll(s'.log, t'.job.buf[t'.taken..], answers[1..]);
                     r.log == r'.log && r.ok == r'.ok && t.taken + r.taken == t'.taken + r'.taken)
            && (!Open(s') ==>
                  s'.holder.None? && s'.log == r.log && t' == t.(taken := t.taken + r.taken, done := true, ok := r.ok))
  {
    hide Rolled;
    var t := s.turns[|s.turns| - 1];
    var left := t.job.buf[t.taken..];
    if left != [] && answers[0].Wrote? {
      var m := Min(answers[0].n, |left|);
      assert t.job.buf[t.taken + m..] == left[m..];
      assert Rolled(s.log).active + [] == Rolled(s.log).active;
    }
  }

  // ---- sizes ----------------------------------------------------------------------------

  predicate JobsWithin(s: System, longest: nat) {
    forall i :: 0 <= i < |s.turns| ==> |s.turns[i].job.buf| <= longest
  }

  predicate ShortEvents(evs: seq<Event>, longest: nat) {
    forall i :: 0 <= i < |evs| ==> (evs[i].Locks? ==> |evs[i].job.buf| <= longest)
  }

  /** How often a step rotates. */
  function StepRolls(s: System, ev: Event): nat
    requires Enabled(s, ev)
  {
    if ev.Locks? then 0
    else
      var t := s.turns[|s.turns| - 1];
      if t.job.Whole? && t.job.buf[t.taken..] == [] then 0 else Rolls(s.log)
  }

  function RunRolls(s: System, evs: seq<Event>): nat
    decreases |evs|
  {
    if evs == [] then 0
    else if Enabled(s, evs[0]) then StepRolls(s, evs[0]) + RunRolls(Step(s, evs[0]), evs[1..])
    else RunRolls(s, evs[1..])
  }

  lemma StepSizes(s: System, ev: Event, longest: nat, k: nat)
    requires Enabled(s, ev) && JobsWithin(s, longest) && (ev.Locks? ==> |ev.job.buf| <= longest)
    requires s.log.maxBytes > 0 && Within(s.log, s.log.maxBytes - 1 + longest) && FullSlots(s.log, k)
    ensures var t := Step(s, ev);
            && t.log.maxBytes == s.log.maxBytes && |t.log.rotated| == |s.log.rotated|
            && JobsWithin(t, longest) && Within(t.log, s.log.maxBytes - 1 + longest) && FullSlots(t.log, k + StepRolls(s, ev))
  {
    RolledSizes(s.log, s.log.maxBytes - 1 + longest, k);
    hide Rolled;
  }

  /**
   No interleaving of writes of at most `longest` bytes makes any file, or all of them together,
   larger; and every file rotated out on the way was full.
   */
  lemma {:induction false} RunSizes(s: System, evs: seq<Event>, longest: nat, k: nat)
    requires JobsWithin(s, longest) && ShortEvents(evs, longest)
    requires s.log.maxBytes > 0 && Within(s.log, s.log.maxBytes - 1 + longest) && FullSlots(s.log, k)
    ensures var l := Run(s, evs).log;
            && Within(l, s.log.maxBytes - 1 + longest)
            && FullSlots(l, k + RunRolls(s, evs))
            && |l.active| + OnDisk(l.rotated) <= (|s.log.rotated| + 1) * (s.log.maxBytes - 1 + longest)
    decreases |evs|
  {
    hide Within, OnDisk, JobsWithin, FullSlots, StepRolls, Step;
    if evs == [] {
      DiskBound(s.log, s.log.maxBytes - 1 + longest);
    } else if Enabled(s, evs[0]) {
      StepSizes(s, evs[0], longest, k);
      RunSizes(Step(s, evs[0]), evs[1..], longest, k + StepRolls(s, evs[0]));
    } else {
      RunSizes(s, evs[1..], longest, k);
    }
  }
}
