/**
 The size-rotating log of `src/logging.rs`: one active file and numbered rotated files. The
 rotated files are a sequence of slots, newest first; a slot may have no file in it.
 */
module RotatingLog {
  import opened Wrappers
  import opened Numbers
  import Utf8

  type Byte = Utf8.Byte

  type Slot = Option<seq<Byte>>

  /** `written` is the writer's own count of the active file's bytes. */
  datatype Log = Log(maxBytes: nat, rotated: seq<Slot>, active: seq<Byte>, written: nat)

  /** What the operating system answers to one `write`: a count, an interruption, or an error. */
  datatype Answer = Wrote(n: nat) | Interrupted | Broken

  /** The size of the active file is what the writer believes. */
  predicate Valid(l: Log) {
    l.written == |l.active|
  }

  function Opened(maxBytes: nat, rotated: seq<Slot>, existing: Slot): (l: Log)
    ensures Valid(l)
  {
    var found := if existing.Some? then existing.value else [];
    Log(maxBytes, rotated, found, |found|)
  }

  /** Every file one slot up, the oldest one dropped, an empty file in front. */
  function Rotated(l: Log): Log {
    if |l.rotated| == 0 then l.(active := [], written := 0)
    else l.(rotated := [Some(l.active)] + l.rotated[..|l.rotated| - 1], active := [], written := 0)
  }

  predicate MustRotate(l: Log) {
    l.maxBytes > 0 && l.written >= l.maxBytes
  }

  function Rolled(l: Log): Log {
    if MustRotate(l) then Rotated(l) else l
  }

  /** One `write` of which the operating system takes `bytes`. */
  function Appended(l: Log, bytes: seq<Byte>): Log {
    var r := Rolled(l);
    r.(active := r.active + bytes, written := r.written + |bytes|)
  }

  /** The outcome of a whole record: the log after it, what was taken of it, whether all was, and how often it rotated. */
  datatype Outcome = Outcome(log: Log, taken: nat, ok: bool, rolls: nat)

  function Rolls(l: Log): nat {
    if MustRotate(l) then 1 else 0
  }

  /** `write_all`: keep writing what is left; once `answers` are used up everything is taken. */
  function WriteAll(l: Log, buf: seq<Byte>, answers: seq<Answer>): (r: Outcome)
    ensures r.taken <= |buf|
    decreases |answers|, |buf|
  {
    if buf == [] then Outcome(l, 0, true, 0)
    else if answers == [] then Outcome(Appended(l, buf), |buf|, true, Rolls(l))
    else
      match answers[0]
      case Broken => Outcome(Rolled(l), 0, false, Rolls(l))
      case Interrupted =>
        var rest := WriteAll(Rolled(l), buf, answers[1..]);
        rest.(rolls := Rolls(l) + rest.rolls)
      case Wrote(n) =>
        var m := Min(n, |buf|);
        if m == 0 then Outcome(Rolled(l), 0, false, Rolls(l)) else
          var rest := WriteAll(Appended(l, buf[..m]), buf[m..], answers[1..]);
          Outcome(rest.log, m + rest.taken, rest.ok, Rolls(l) + rest.rolls)
  }

  // ---- conservation ---------------------------------------------------------------------

  function Text(f: Slot): seq<Byte> {
    if f.Some? then f.value else []
  }

  /** The rotated files that exist, oldest first. */
  function Kept(rotated: seq<Slot>): seq<Byte> {
    if rotated == [] then [] else Kept(rotated[1..]) + Text(rotated[0])
  }

  /** Everything on disk, in the order it was written. */
  function History(l: Log): seq<Byte> {
    Kept(l.rotated) + l.active
  }

  predicate SuffixOf(a: seq<Byte>, b: seq<Byte>) {
    |a| <= |b| && b[|b| - |a|..] == a
  }

  lemma {:induction false} KeptInit(rotated: seq<Slot>)
    requires rotated != []
    ensures Kept(rotated) == Text(rotated[|rotated| - 1]) + Kept(rotated[..|rotated| - 1])
    decreases |rotated|
  {
    var n := |rotated| - 1;
    if n > 0 {
      KeptInit(rotated[1..]);
      assert rotated[1..][..n - 1] == rotated[..n][1..];
    }
  }

  /** Rotation loses exactly the file in the last slot, if there is one, and reorders nothing. */
  lemma RotatedHistory(l: Log)
    ensures |l.rotated| > 0 ==> History(l) == Text(l.rotated[|l.rotated| - 1]) + History(Rotated(l))
    ensures |l.rotated| == 0 ==> History(Rotated(l)) == []
  {
    var n := |l.rotated|;
    if n > 0 {
      KeptInit(l.rotated);
      var r := Rotated(l).rotated;
      assert r[1..] == l.rotated[..n - 1];
    }
  }

  lemma SuffixGrows(a: seq<Byte>, b: seq<Byte>, more: seq<Byte>)
    requires SuffixOf(a, b)
    ensures SuffixOf(a + more, b + more)
  {
  }

  lemma RolledHistory(l: Log)
    ensures SuffixOf(History(Rolled(l)), History(l))
  {
    RotatedHistory(l);
  }

  lemma WritesKeepCount(l: Log, bytes: seq<Byte>)
    requires Valid(l)
    ensures Valid(Rolled(l)) && Valid(Appended(l, bytes))
  {
  }

  lemma SuffixTrans(a: seq<Byte>, b: seq<Byte>, c: seq<Byte>)
    requires SuffixOf(a, b) && SuffixOf(b, c)
    ensures SuffixOf(a, c)
  {
  }

  lemma AppendedHistory(l: Log, bytes: seq<Byte>, all: seq<Byte>)
    requires SuffixOf(History(l), all)
    ensures SuffixOf(History(Appended(l, bytes)), all + bytes)
  {
    RolledHistory(l);
    SuffixTrans(History(Rolled(l)), History(l), all);
    SuffixGrows(History(Rolled(l)), all, bytes);
    assert History(Appended(l, bytes)) == History(Rolled(l)) + bytes;
  }

  /** Whatever is taken of a record is on disk, in order, right behind what was there. */
  lemma {:induction false} WriteAllHistory(l: Log, buf: seq<Byte>, answers: seq<Answer>, all: seq<Byte>)
    requires SuffixOf(History(l), all)
    ensures var r := WriteAll(l, buf, answers);
            SuffixOf(History(r.log), all + buf[..r.taken]) && (r.ok <==> r.taken == |buf|)
    decreases |answers|, |buf|
  {
    RolledHistory(l);
    SuffixTrans(History(Rolled(l)), History(l), all);
    assert all + [] == all;
    if buf == [] {
    } else if answers == [] {
      AppendedHistory(l, buf, all);
      assert buf[..|buf|] == buf;
    } else if answers[0].Interrupted? {
      WriteAllHistory(Rolled(l), buf, answers[1..], all);
    } else if answers[0].Wrote? && Min(answers[0].n, |buf|) > 0 {
      var m := Min(answers[0].n, |buf|);
      AppendedHistory(l, buf[..m], all);
      WriteAllHistory(Appended(l, buf[..m]), buf[m..], answers[1..], all + buf[..m]);
      var rest := WriteAll(Appended(l, buf[..m]), buf[m..], answers[1..]);
      assert buf[..m + rest.taken] == buf[..m] + buf[m..][..rest.taken];
      assert all + buf[..m] + buf[m..][..rest.taken] == all + buf[..m + rest.taken];
    }
  }

  // ---- sizes ----------------------------------------------------------------------------

  predicate Within(l: Log, limit: nat) {
    Valid(l) && |l.active| <= limit && forall i :: 0 <= i < |l.rotated| ==> |Text(l.rotated[i])| <= limit
  }

  /** The `k` newest rotated files were rotated out full. */
  predicate FullSlots(l: Log, k: nat) {
    forall i :: 0 <= i < k && i < |l.rotated| ==> l.rotated[i].Some? && |l.rotated[i].value| >= l.maxBytes
  }

  function OnDisk(rotated: seq<Slot>): nat {
    if rotated == [] then 0 else |Text(rotated[0])| + OnDisk(rotated[1..])
  }

  lemma RolledSizes(l: Log, limit: nat, k: nat)
    requires Within(l, limit) && FullSlots(l, k)
    ensures var r := Rolled(l);
            && Within(r, limit) && FullSlots(r, k + Rolls(l))
            && r.maxBytes == l.maxBytes && |r.rotated| == |l.rotated|
            && (l.maxBytes > 0 ==> |r.active| < l.maxBytes)
  {
    var r := Rolled(l);
    if MustRotate(l) && |l.rotated| > 0 {
      assert forall i :: 0 < i < |r.rotated| ==> r.rotated[i] == l.rotated[i - 1];
    }
  }

  /**
   Writes of at most `longest` bytes leave no file longer than one byte under the cap plus
   the longest write; the counter stays right, and every file rotated out is full.
   */
  lemma {:induction false} WriteAllSizes(l: Log, buf: seq<Byte>, answers: seq<Answer>, longest: nat, k: nat)
    requires l.maxBytes > 0 && |buf| <= longest
    requires Within(l, l.maxBytes - 1 + longest) && FullSlots(l, k)
    ensures var r := WriteAll(l, buf, answers);
            && Within(r.log, l.maxBytes - 1 + longest) && FullSlots(r.log, k + r.rolls)
            && r.log.maxBytes == l.maxBytes && |r.log.rotated| == |l.rotated|
    decreases |answers|, |buf|
  {
    RolledSizes(l, l.maxBytes - 1 + longest, k);
    if buf != [] && answers != [] {
      if answers[0].Interrupted? {
        WriteAllSizes(Rolled(l), buf, answers[1..], longest, k + Rolls(l));
      } else if answers[0].Wrote? && Min(answers[0].n, |buf|) > 0 {
        var m := Min(answers[0].n, |buf|);
        WriteAllSizes(Appended(l, buf[..m]), buf[m..], answers[1..], longest, k + Rolls(l));
      }
    }
  }

  lemma {:induction false} OnDiskBound(rotated: seq<Slot>, limit: nat)
    requires forall i :: 0 <= i < |rotated| ==> |Text(rotated[i])| <= limit
    ensures OnDisk(rotated) <= |rotated| * limit
    decreases |rotated|
  {
    if rotated != [] {
      OnDiskBound(rotated[1..], limit);
      assert |rotated| * limit == limit + (|rotated| - 1) * limit;
    }
  }

  /** Total disk use is bounded by the number of files times the bound on one. */
  lemma DiskBound(l: Log, limit: nat)
    requires Within(l, limit)
    ensures |l.active| + OnDisk(l.rotated) <= (|l.rotated| + 1) * limit
  {
    OnDiskBound(l.rotated, limit);
    assert (|l.rotated| + 1) * limit == limit + |l.rotated| * limit;
  }

  /**
   The documented ceiling of `maxBytes` per file does not hold: an empty log with a cap of
   one byte takes a record of two into its active file.
   */
  lemma CeilingIsExceeded()
    ensures var r := WriteAll(Opened(1, [], None), [0, 0], []);
            r.ok && |r.log.active| > r.log.maxBytes
  {
  }

  /** One write stays under the documented ceiling exactly when it fits in the room that is left. */
  lemma CeilingHoldsIff(l: Log, bytes: seq<Byte>)
    requires Valid(l) && l.maxBytes > 0
    ensures |Appended(l, bytes).active| <= l.maxBytes <==>
            |bytes| <= l.maxBytes - (if l.written >= l.maxBytes then 0 else l.written)
  {
  }

  // ---- the writer itself ----------------------------------------------------------------

  class RotatingState {
    const maxBytes: nat
    var rotated: seq<Slot>
    var active: seq<Byte>
    var written: nat

    ghost function L(): Log
      reads this
    {
      Log(maxBytes, rotated, active, written)
    }

    constructor (cap: nat, slots: seq<Slot>, existing: Slot)
      ensures L() == Opened(cap, slots, existing)
    {
      maxBytes, rotated := cap, slots;
      active := if existing.Some? then existing.value else [];
      written := if existing.Some? then |existing.value| else 0;
    }

    /** Remove the oldest file, rename the others up from the oldest down, then the active one. */
    method Rotate()
      modifies this`rotated, this`active, this`written
      ensures L() == Rotated(old(L()))
    {
      var n := |rotated|;
      if n > 0 {
        rotated := rotated[n - 1 := None];
        var i := n - 1;
        while i > 0
          invariant 0 <= i <= n - 1 && |rotated| == n && rotated[i].None?
          invariant forall j :: i < j < n ==> rotated[j] == old(rotated)[j - 1]
          invariant forall j :: 0 <= j < i ==> rotated[j] == old(rotated)[j]
          modifies this`rotated
        {
          if rotated[i - 1].Some? {
            rotated := rotated[i := rotated[i - 1]];
            rotated := rotated[i - 1 := None];
          }
          i := i - 1;
        }
        rotated := rotated[0 := Some(active)];
        assert rotated == [Some(active)] + old(rotated)[..n - 1];
      }
      active := [];
      written := 0;
    }

    /** Roll first if the file is full, then append what the operating system takes of `buf`. */
    method Write(buf: seq<Byte>, answer: Answer) returns (n: Option<nat>)
      modifies this`rotated, this`active, this`written
      ensures match answer
              case Wrote(k) => n == Some(Min(k, |buf|)) && L() == Appended(old(L()), buf[..Min(k, |buf|)])
              case _ => n.None? && L() == Rolled(old(L()))
    {
      if maxBytes > 0 && written >= maxBytes {
        Rotate();
      }
      match answer
      case Wrote(k) =>
        var m := Min(k, |buf|);
        active := active + buf[..m];
        written := written + m;
        n := Some(m);
      case _ =>
        n := None;
    }

    method WriteRecord(buf: seq<Byte>, answers: seq<Answer>) returns (ok: bool)
      modifies this`rotated, this`active, this`written
      ensures L() == WriteAll(old(L()), buf, answers).log && ok == WriteAll(old(L()), buf, answers).ok
    {
      var rest, left := buf, answers;
      while rest != []
        invariant WriteAll(L(), rest, left).log == WriteAll(old(L()), buf, answers).log
        invariant WriteAll(L(), rest, left).ok == WriteAll(old(L()), buf, answers).ok
        decreases |left|, |rest|
      {
        var answer := if left == [] then Wrote(|rest|) else left[0];
        var n := Write(rest, answer);
        assert left == [] ==> rest[..|rest|] == rest;
        if n == Some(0) || answer.Broken? {
          return false;
        }
        if n.Some? {
          rest := rest[n.value..];
        }
        left := if left == [] then [] else left[1..];
      }
      return true;
    }
  }
}
