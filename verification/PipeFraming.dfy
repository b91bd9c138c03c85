/** Newline framing on the pipe to an MCP server: writeMessage of internal/mcp/stdio_client.go, which many callers run
    at once and which writes a payload and its newline separately under one lock. */
module PipeFraming {
  import opened Options
  import opened Text

  /** Where a caller of writeMessage is. */
  datatype Phase =
    | Waiting(payload: string)
    | Locked(payload: string)
    | PayloadWritten(payload: string)
    | Unlocking(payload: string, ok: bool)
    | Returned(payload: string, ok: bool)

  /** What one call left on the pipe, not counting the newline of a successful one. */
  datatype Entry = Entry(writer: nat, text: string, ok: bool)

  datatype State = State(pipe: string, lock: Option<nat>, phases: map<nat, Phase>, log: seq<Entry>)

  /** A payload write puts `n` characters on the pipe, and fails unless that is all; the newline is written or not. */
  datatype Step =
    | Call(w: nat, payload: string)
    | Lock(w: nat)
    | WritePayload(w: nat, n: nat)
    | WriteNewline(w: nat, ok: bool)
    | Unlock(w: nat)

  ghost predicate Enabled(s: State, step: Step) {
    match step
    case Call(w, payload) => w !in s.phases && '\n' !in payload
    case Lock(w) => w in s.phases && s.phases[w].Waiting? && s.lock == None
    case WritePayload(w, n) => w in s.phases && s.phases[w].Locked? && n <= |s.phases[w].payload|
    case WriteNewline(w, ok) => w in s.phases && s.phases[w].PayloadWritten?
    case Unlock(w) => w in s.phases && s.phases[w].Unlocking?
  }

  function Left(s: State, w: nat, text: string, ok: bool, p: Phase, written: string): State {
    s.(pipe := s.pipe + written, phases := s.phases[w := p], log := s.log + [Entry(w, text, ok)])
  }

  ghost function Apply(s: State, step: Step): State
    requires Enabled(s, step)
  {
    match step
    case Call(w, payload) => s.(phases := s.phases[w := Waiting(payload)])
    case Lock(w) => s.(lock := Some(w), phases := s.phases[w := Locked(s.phases[w].payload)])
    case WritePayload(w, n) =>
      var payload := s.phases[w].payload;
      if n == |payload| then s.(pipe := s.pipe + payload, phases := s.phases[w := PayloadWritten(payload)])
      else Left(s, w, payload[..n], false, Unlocking(payload, false), payload[..n])
    case WriteNewline(w, ok) =>
      var payload := s.phases[w].payload;
      Left(s, w, payload, ok, Unlocking(payload, ok), if ok then "\n" else "")
    case Unlock(w) =>
      s.(lock := None, phases := s.phases[w := Returned(s.phases[w].payload, s.phases[w].ok)])
  }

  ghost predicate Reaches(s: State, steps: seq<Step>)
    decreases |steps|
  {
    if steps == [] then s == State("", None, map[], [])
    else
      var n := |steps| - 1;
      exists before :: Reaches(before, steps[..n]) && Enabled(before, steps[n]) && s == Apply(before, steps[n])
  }

  // ------------------------------------------------------------------ the invariant

  function Framed(e: Entry): string { if e.ok then e.text + "\n" else e.text }

  function Flat(log: seq<Entry>): string {
    if log == [] then "" else Flat(log[..|log| - 1]) + Framed(log[|log| - 1])
  }

  predicate Holds(p: Phase) { p.Locked? || p.PayloadWritten? || p.Unlocking? }

  /** What the holder of the lock has on the pipe and not yet in the log. */
  function Half(s: State): string {
    if s.lock.Some? && s.lock.value in s.phases && s.phases[s.lock.value].PayloadWritten?
    then s.phases[s.lock.value].payload else ""
  }

  ghost predicate InLog(log: seq<Entry>, w: nat, p: Phase) {
    (p.Unlocking? || p.Returned?) ==>
      exists e <- log :: e.writer == w && e.ok == p.ok && if p.ok then e.text == p.payload else e.text <= p.payload
  }

  /** The lock is held by the one caller that is past it and has not unlocked. */
  ghost predicate Locking(s: State) {
    && (s.lock.Some? ==> s.lock.value in s.phases)
    && forall w <- s.phases :: Holds(s.phases[w]) <==> s.lock == Some(w)
  }

  ghost predicate Logging(s: State) {
    && (forall w <- s.phases :: '\n' !in s.phases[w].payload && InLog(s.log, w, s.phases[w]))
    && (forall e <- s.log :: '\n' !in e.text)
  }

  ghost predicate Inv(s: State) { Locking(s) && Logging(s) && s.pipe == Flat(s.log) + Half(s) }

  lemma FlatSnoc(log: seq<Entry>, e: Entry)
    ensures Flat(log + [e]) == Flat(log) + Framed(e)
  {
    assert (log + [e])[..|log|] == log;
  }

  lemma InLogKept(log: seq<Entry>, e: Entry, w: nat, p: Phase)
    requires InLog(log, w, p)
    ensures InLog(log + [e], w, p)
  {
    assert forall x <- log :: x in log + [e];
  }

  lemma LoggingLeft(s: State, w: nat, e: Entry, p: Phase)
    requires Logging(s) && w in s.phases && p.payload == s.phases[w].payload
    requires e.text <= p.payload && InLog([e], w, p)
    ensures Logging(s.(phases := s.phases[w := p], log := s.log + [e]))
  {
    var t := s.(phases := s.phases[w := p], log := s.log + [e]);
    assert forall c <- e.text :: c in p.payload;
    assert forall x <- [e] :: x in t.log;
    forall v | v in t.phases && v != w ensures InLog(t.log, v, t.phases[v]) {
      InLogKept(s.log, e, v, s.phases[v]);
    }
  }

  lemma PipeLeft(pipe: string, log: seq<Entry>, e: Entry, half: string, written: string)
    requires pipe == Flat(log) + half && half + written == Framed(e)
    ensures pipe + written == Flat(log + [e])
  {
    FlatSnoc(log, e);
    Regroup(Flat(log), half, written);
  }

  /** The holder ends its part: the entry takes the place of what was half written. */
  lemma InvLeft(s: State, w: nat, e: Entry, p: Phase, written: string)
    requires Inv(s) && w in s.phases && Holds(s.phases[w]) && p.Unlocking? && p.payload == s.phases[w].payload
    requires e.text <= p.payload && InLog([e], w, p) && Half(s) + written == Framed(e)
    ensures Inv(s.(pipe := s.pipe + written, phases := s.phases[w := p], log := s.log + [e]))
  {
    LoggingLeft(s, w, e, p);
    PipeLeft(s.pipe, s.log, e, Half(s), written);
    var t := s.(pipe := s.pipe + written, phases := s.phases[w := p], log := s.log + [e]);
    var u := s.(phases := s.phases[w := p], log := s.log + [e]);
    assert Logging(u) && t.log == u.log && t.phases == u.phases;
  }

  lemma InvPayload(s: State, w: nat, n: nat)
    requires Inv(s) && Enabled(s, WritePayload(w, n))
    ensures Inv(Apply(s, WritePayload(w, n)))
  {
    var payload := s.phases[w].payload;
    assert Half(s) == "";
    if n < |payload| {
      var e := Entry(w, payload[..n], false);
      assert e in [e];
      InvLeft(s, w, e, Unlocking(payload, false), payload[..n]);
    }
  }

  lemma InvNewline(s: State, w: nat, ok: bool)
    requires Inv(s) && Enabled(s, WriteNewline(w, ok))
    ensures Inv(Apply(s, WriteNewline(w, ok)))
  {
    var payload := s.phases[w].payload;
    assert Half(s) == payload;
    var e := Entry(w, payload, ok);
    assert e in [e];
    InvLeft(s, w, e, Unlocking(payload, ok), if ok then "\n" else "");
  }

  lemma InvCall(s: State, w: nat, payload: string)
    requires Inv(s) && Enabled(s, Call(w, payload))
    ensures Inv(Apply(s, Call(w, payload)))
  {
    var t := Apply(s, Call(w, payload));
    assert Half(t) == Half(s);
  }

  lemma InvLock(s: State, w: nat)
    requires Inv(s) && Enabled(s, Lock(w))
    ensures Inv(Apply(s, Lock(w)))
  {
    assert Half(Apply(s, Lock(w))) == Half(s) == "";
  }

  lemma InvUnlock(s: State, w: nat)
    requires Inv(s) && Enabled(s, Unlock(w))
    ensures Inv(Apply(s, Unlock(w)))
  {
    assert Half(Apply(s, Unlock(w))) == Half(s) == "";
    assert InLog(s.log, w, s.phases[w]);
  }

  lemma {:induction false} InvReached(s: State, steps: seq<Step>)
    requires Reaches(s, steps)
    ensures Inv(s)
    decreases |steps|
  {
    if steps == [] {
      assert Flat([]) == "";
    } else {
      var n := |steps| - 1;
      var before :| Reaches(before, steps[..n]) && Enabled(before, steps[n]) && s == Apply(before, steps[n]);
      InvReached(before, steps[..n]);
      match steps[n]
      case WritePayload(w, k) => InvPayload(before, w, k);
      case WriteNewline(w, ok) => InvNewline(before, w, ok);
      case Call(w, payload) => InvCall(before, w, payload);
      case Lock(w) => InvLock(before, w);
      case Unlock(w) => InvUnlock(before, w);
    }
  }

  class Pipe {
    var written: string

    /** One call with the lock held: the operating system takes `taken` characters of the payload, and then the newline
        or not. */
    method WriteMessage(payload: string, taken: nat, newlineOk: bool) returns (ok: bool)
      requires taken <= |payload|
      modifies this
      ensures ok == (taken == |payload| && newlineOk)
      ensures forall w :: written == old(written) + Framed(Entry(w, payload[..taken], ok))
    {
      written := written + payload[..taken];
      if taken < |payload| {
        return false;
      }
      if newlineOk {
        written := written + "\n";
      }
      assert payload[..taken] == payload;
      return newlineOk;
    }
  }

  // ------------------------------------------------------------------ what the server reads

  /** What follows the last newline. */
  function Tail(s: string): string {
    if s == "" || s[|s| - 1] == '\n' then "" else Tail(s[..|s| - 1]) + [s[|s| - 1]]
  }

  /** The complete lines of a text. */
  function Lines(s: string): seq<string> {
    if s == "" then []
    else
      var init := s[..|s| - 1];
      if s[|s| - 1] == '\n' then Lines(init) + [Tail(init)] else Lines(init)
  }

  lemma {:induction false} LinesAppend(s: string, t: string)
    requires '\n' !in t
    ensures Lines(s + t) == Lines(s) && Tail(s + t) == Tail(s) + t
  {
    if t == "" {
      assert s + t == s;
    } else {
      var n := |t| - 1;
      assert (s + t)[..|s + t| - 1] == s + t[..n];
      assert t[n] in t;
      LinesAppend(s, t[..n]);
      assert t == t[..n] + [t[n]];
    }
  }

  lemma LinesNewline(s: string)
    ensures Lines(s + "\n") == Lines(s) + [Tail(s)] && Tail(s + "\n") == ""
  {
    assert (s + "\n")[..|s|] == s;
  }

  /** The payloads whose call succeeded, in the order of the lock. */
  function Sent(log: seq<Entry>): seq<string> {
    if log == [] then []
    else
      var e := log[|log| - 1];
      if e.ok then Sent(log[..|log| - 1]) + [e.text] else Sent(log[..|log| - 1])
  }

  predicate NoResidue(log: seq<Entry>) { forall e <- log :: e.ok || e.text == "" }

  /** No failed write left anything on the pipe before a later message was sent. */
  predicate Clean(log: seq<Entry>) {
    forall i, j | 0 <= i < j < |log| :: !log[i].ok && log[i].text != "" ==> !log[j].ok
  }

  lemma CleanSnoc(log: seq<Entry>, e: Entry)
    ensures Clean(log + [e]) <==> Clean(log) && (e.ok ==> NoResidue(log))
    ensures NoResidue(log + [e]) <==> NoResidue(log) && (e.ok || e.text == "")
  {
    var all := log + [e];
    assert forall i | 0 <= i < |log| :: all[i] == log[i];
    if Clean(all) && e.ok {
      assert forall i | 0 <= i < |log| :: log[i].ok || log[i].text == "" by {
        assert all[|log|] == e;
      }
    }
    if NoResidue(all) {
      assert forall x <- log :: x in all;
    }
    if NoResidue(all) {
      assert all[|log|] in all;
    }
  }

  /** The lines of `s` with an entry after it. */
  function LinesWith(s: string, e: Entry): seq<string> {
    if e.ok then Lines(s) + [Tail(s) + e.text] else Lines(s)
  }

  lemma LinesFramed(s: string, e: Entry)
    requires '\n' !in e.text
    ensures Lines(s + Framed(e)) == LinesWith(s, e)
    ensures Tail(s + Framed(e)) == if e.ok then "" else Tail(s) + e.text
  {
    LinesAppend(s, e.text);
    if e.ok {
      LinesNewline(s + e.text);
      assert s + Framed(e) == s + e.text + "\n";
    }
  }

  lemma LinesSnoc(log: seq<Entry>, e: Entry)
    requires '\n' !in e.text
    ensures Lines(Flat(log + [e])) == LinesWith(Flat(log), e)
    ensures Tail(Flat(log + [e])) == if e.ok then "" else Tail(Flat(log)) + e.text
  {
    FlatSnoc(log, e);
    LinesFramed(Flat(log), e);
  }

  lemma {:induction false} LinesOfLog(log: seq<Entry>)
    requires forall e <- log :: '\n' !in e.text
    ensures |Lines(Flat(log))| == |Sent(log)|
    ensures Lines(Flat(log)) == Sent(log) <==> Clean(log)
    ensures Clean(log) ==> (Tail(Flat(log)) == "" <==> NoResidue(log))
  {
    if log == [] {
    } else {
      var n := |log| - 1;
      var init, e := log[..n], log[n];
      assert log == init + [e];
      LinesOfLog(init);
      LinesSnoc(init, e);
      CleanSnoc(init, e);
      if e.ok {
        SameSnoc(Lines(Flat(init)), Sent(init), Tail(Flat(init)), e.text);
      }
    }
  }

  lemma SameSnoc(xs: seq<string>, ys: seq<string>, pending: string, text: string)
    requires |xs| == |ys|
    ensures xs + [pending + text] == ys + [text] <==> xs == ys && pending == ""
  {
    assert "" + text == text;
    if xs + [pending + text] == ys + [text] {
      assert (xs + [pending + text])[..|xs|] == xs && (ys + [text])[..|ys|] == ys;
      assert (xs + [pending + text])[|xs|] == (ys + [text])[|ys|];
      assert |pending| + |text| == |pending + text| == |text|;
    }
  }

  // ------------------------------------------------------------------ the pipe, step by step

  /** The payload that a caller came with. */
  function PayloadOf(steps: seq<Step>, w: nat): string {
    if steps == [] then ""
    else
      var last := steps[|steps| - 1];
      if last.Call? && last.w == w then last.payload else PayloadOf(steps[..|steps| - 1], w)
  }

  /** Every write in turn: the first characters of a payload, as many as were taken, and the newlines that were. */
  function WrittenBy(steps: seq<Step>): string {
    if steps == [] then ""
    else
      var init, last := steps[..|steps| - 1], steps[|steps| - 1];
      WrittenBy(init)
      + match last
        case WritePayload(w, n) => if n <= |PayloadOf(init, w)| then PayloadOf(init, w)[..n] else ""
        case WriteNewline(_, true) => "\n"
        case _ => ""
  }

  lemma StepWrites(b: State, step: Step, init: seq<Step>)
    requires Enabled(b, step) && forall w <- b.phases :: b.phases[w].payload == PayloadOf(init, w)
    ensures var t := Apply(b, step);
            && WrittenBy(init + [step]) + "" == WrittenBy(init) + t.pipe[|b.pipe|..]
            && b.pipe <= t.pipe
            && forall w <- t.phases :: t.phases[w].payload == PayloadOf(init + [step], w)
  {
    var all := init + [step];
    assert all[..|init|] == init;
  }

  /** The pipe holds what was written, in the order of the writes. */
  lemma {:induction false} PipeIsWritten(s: State, steps: seq<Step>)
    requires Reaches(s, steps)
    ensures s.pipe == WrittenBy(steps)
    ensures forall w <- s.phases :: s.phases[w].payload == PayloadOf(steps, w)
    decreases |steps|
  {
    if steps == [] {
    } else {
      var n := |steps| - 1;
      var b :| Reaches(b, steps[..n]) && Enabled(b, steps[n]) && s == Apply(b, steps[n]);
      PipeIsWritten(b, steps[..n]);
      StepWrites(b, steps[n], steps[..n]);
      assert steps == steps[..n] + [steps[n]];
      assert s.pipe == b.pipe + s.pipe[|b.pipe|..];
    }
  }

  lemma OutcomeStep(b: State, step: Step, w: nat)
    requires Enabled(b, step) && w in Apply(b, step).phases
    ensures var p := Apply(b, step).phases[w];
            (p.Unlocking? || p.Returned?) && p.ok <==>
            step == WriteNewline(w, true)
            || (w in b.phases && (b.phases[w].Unlocking? || b.phases[w].Returned?) && b.phases[w].ok)
  {
  }

  /** A call succeeds exactly when its newline was written. */
  lemma {:induction false} SucceedsIffNewline(s: State, steps: seq<Step>, w: nat)
    requires Reaches(s, steps)
    ensures (w in s.phases && (s.phases[w].Unlocking? || s.phases[w].Returned?) && s.phases[w].ok)
            <==> WriteNewline(w, true) in steps
    decreases |steps|
  {
    if steps == [] {
    } else {
      var n := |steps| - 1;
      var b :| Reaches(b, steps[..n]) && Enabled(b, steps[n]) && s == Apply(b, steps[n]);
      SucceedsIffNewline(b, steps[..n], w);
      assert steps == steps[..n] + [steps[n]];
      assert WriteNewline(w, true) in steps
        <==> WriteNewline(w, true) in steps[..n] || steps[n] == WriteNewline(w, true);
      assert w in b.phases ==> w in s.phases;
      if w in s.phases {
        OutcomeStep(b, steps[n], w);
      }
    }
  }

  /** However the calls interleave, the server's lines are the sent payloads, whole and in the order of the lock,
      exactly when no failed write left a residue before a later message. */
  lemma LinesAreMessagesIff(s: State, steps: seq<Step>)
    requires Reaches(s, steps)
    ensures Lines(s.pipe) == Sent(s.log) <==> Clean(s.log)
  {
    InvReached(s, steps);
    LinesAppend(Flat(s.log), Half(s));
    LinesOfLog(s.log);
  }

  /** No deadlock: while some call has not returned, some caller can take a step. */
  lemma SomeCallerCanMove(s: State, steps: seq<Step>, w: nat)
    requires Reaches(s, steps) && w in s.phases && !s.phases[w].Returned?
    ensures exists step :: Enabled(s, step) && step.w in s.phases
  {
    InvReached(s, steps);
    var v := if s.lock.Some? then s.lock.value else w;
    match s.phases[v]
    case Waiting(_) => assert Enabled(s, Lock(v));
    case Locked(_) => assert Enabled(s, WritePayload(v, 0));
    case PayloadWritten(_) => assert Enabled(s, WriteNewline(v, true));
    case Unlocking(_, _) => assert Enabled(s, Unlock(v));
  }

  /** A call that returned nil has its payload among the messages. */
  lemma ReturnedMeansSent(s: State, steps: seq<Step>, w: nat)
    requires Reaches(s, steps) && w in s.phases && s.phases[w].Returned? && s.phases[w].ok
    ensures s.phases[w].payload in Sent(s.log)
  {
    InvReached(s, steps);
    assert InLog(s.log, w, s.phases[w]);
    var e :| e in s.log && e.writer == w && e.ok && e.text == s.phases[w].payload;
    SentMembers(s.log, e);
  }

  lemma {:induction false} SentMembers(log: seq<Entry>, e: Entry)
    requires e in log && e.ok
    ensures e.text in Sent(log)
  {
    var n := |log| - 1;
    if log[n] != e {
      assert log == log[..n] + [log[n]];
      SentMembers(log[..n], e);
    }
  }

  /** Whatever a failed write has left, all of the payload without its newline or less, the next message joins it in one
      line. */
  lemma ResidueJoinsNextLine(payload: string, n: nat, next: string)
    requires n <= |payload| && '\n' !in payload && '\n' !in next
    ensures exists s, steps :: Reaches(s, steps) && Lines(s.pipe) == [payload[..n] + next] && Sent(s.log) == [next]
  {
    var s0 := State("", None, map[], []);
    var s1, t1 := FailedCall(s0, [], 0, payload, n);
    var s2, t2 := WholeCall(s1, t1, 1, next, true);
    Joined(s2, payload[..n], next);
    assert forall c <- payload[..n] :: c in payload;
  }

  lemma Joined(s: State, residue: string, next: string)
    requires '\n' !in residue && '\n' !in next
    requires s.pipe == "" + residue + Framed(Entry(1, next, true))
    requires s.log == [] + [Entry(0, residue, false)] + [Entry(1, next, true)]
    ensures Lines(s.pipe) == [residue + next] && Sent(s.log) == [next]
  {
    OneLine(residue + next);
    assert s.pipe == residue + next + "\n";
    SentSnoc([], Entry(0, residue, false));
    SentSnoc([] + [Entry(0, residue, false)], Entry(1, next, true));
  }

  lemma OneLine(line: string)
    requires '\n' !in line
    ensures Lines(line + "\n") == [line]
  {
    LinesAppend("", line);
    assert "" + line == line;
    LinesNewline(line);
  }

  lemma SentSnoc(log: seq<Entry>, e: Entry)
    ensures Sent(log + [e]) == if e.ok then Sent(log) + [e.text] else Sent(log)
  {
    assert (log + [e])[..|log|] == log;
  }

  lemma FailedCall(s: State, steps: seq<Step>, w: nat, payload: string, n: nat) returns (t: State, more: seq<Step>)
    requires Reaches(s, steps) && s.lock == None && w !in s.phases && '\n' !in payload && n <= |payload|
    ensures Reaches(t, more) && t.lock == None && t.phases == s.phases[w := Returned(payload, false)]
    ensures t.pipe == s.pipe + payload[..n] && t.log == s.log + [Entry(w, payload[..n], false)]
  {
    if n == |payload| {
      t, more := WholeCall(s, steps, w, payload, false);
      assert payload[..n] == payload;
    } else {
      var s1, t1 := After(s, steps, Call(w, payload));
      var s2, t2 := After(s1, t1, Lock(w));
      var s3, t3 := After(s2, t2, WritePayload(w, n));
      t, more := After(s3, t3, Unlock(w));
      assert t.phases == s.phases[w := Returned(payload, false)];
    }
  }

  /** While nobody holds the lock a new caller can get its payload onto the pipe. */
  lemma PayloadCall(s: State, steps: seq<Step>, w: nat, payload: string) returns (t: State, more: seq<Step>)
    requires Reaches(s, steps) && s.lock == None && w !in s.phases && '\n' !in payload
    ensures Reaches(t, more)
    ensures t == State(s.pipe + payload, Some(w), s.phases[w := PayloadWritten(payload)], s.log)
  {
    var s1, t1 := After(s, steps, Call(w, payload));
    var s2, t2 := After(s1, t1, Lock(w));
    t, more := After(s2, t2, WritePayload(w, |payload|));
    assert t.phases == s.phases[w := PayloadWritten(payload)];
  }

  /** A call that runs without interference, its newline written or not. */
  lemma WholeCall(s: State, steps: seq<Step>, w: nat, payload: string, ok: bool) returns (t: State, more: seq<Step>)
    requires Reaches(s, steps) && s.lock == None && w !in s.phases && '\n' !in payload
    ensures Reaches(t, more)
    ensures t.lock == None && t.phases == s.phases[w := Returned(payload, ok)]
    ensures t.pipe == s.pipe + Framed(Entry(w, payload, ok)) && t.log == s.log + [Entry(w, payload, ok)]
  {
    var s1, t1 := PayloadCall(s, steps, w, payload);
    var s2, t2 := After(s1, t1, WriteNewline(w, ok));
    t, more := After(s2, t2, Unlock(w));
    assert t.phases == s.phases[w := Returned(payload, ok)];
    assert s.pipe + payload + (if ok then "\n" else "") == s.pipe + Framed(Entry(w, payload, ok));
  }

  lemma After(s: State, steps: seq<Step>, step: Step) returns (t: State, more: seq<Step>)
    requires Reaches(s, steps) && Enabled(s, step)
    ensures t == Apply(s, step) && more == steps + [step] && Reaches(t, more)
  {
    t, more := Apply(s, step), steps + [step];
    assert more[..|steps|] == steps;
  }
}
