/** What a whole trace of the correlation protocol does with one call: its number, its phase, and its reply. The
    statements speak of the steps taken and of the state reached, not of what a single step does. */
module CorrelationTraces {
  import opened Correlation
  import opened Options

  // ------------------------------------------------------------------ induction over traces

  /** The state before the last step. */
  lemma Before<C(!new)>(s: State<C>, steps: seq<Step<C>>) returns (b: State<C>)
    requires Reaches(s, steps) && steps != []
    ensures var n := |steps| - 1; Reaches(b, steps[..n]) && Enabled(b, steps[n]) && s == Apply(b, steps[n])
  {
    var n := |steps| - 1;
    b :| Reaches(b, steps[..n]) && Enabled(b, steps[n]) && s == Apply(b, steps[n]);
  }

  // ------------------------------------------------------------------ numbers

  function Allocations<C>(steps: seq<Step<C>>): nat {
    if steps == [] then 0
    else Allocations(steps[..|steps| - 1]) + (if steps[|steps| - 1].Allocate? then 1 else 0)
  }

  lemma NextNumber<C(!new)>(b: State<C>, step: Step<C>)
    requires Enabled(b, step)
    ensures var t := Apply(b, step);
            && t.table.nextId == b.table.nextId + (if step.Allocate? then 1 else 0)
            && (step.Allocate? ==> step.ch in t.calls && t.calls[step.ch].id == t.table.nextId)
  {
  }

  /** A call once numbered keeps its number. */
  lemma CallStays<C(!new)>(b: State<C>, step: Step<C>, c: C)
    requires Enabled(b, step) && c in b.calls
    ensures c in Apply(b, step).calls && Apply(b, step).calls[c].id == b.calls[c].id
  {
  }

  lemma {:induction false} CountedNumbers<C(!new)>(s: State<C>, steps: seq<Step<C>>)
    requires Reaches(s, steps)
    ensures s.table.nextId == 1 + Allocations(steps)
    decreases |steps|
  {
    if steps == [] {
    } else {
      var b := Before(s, steps);
      CountedNumbers(b, steps[..|steps| - 1]);
      NextNumber(b, steps[|steps| - 1]);
    }
  }

  /** Calls are numbered from 2 in the order of their increments, and keep their numbers. */
  lemma {:induction false} NumberedInOrder<C(!new)>(s: State<C>, steps: seq<Step<C>>, c: C, k: nat)
    requires Reaches(s, steps) && k < |steps| && steps[k] == Allocate(c)
    ensures c in s.calls && s.calls[c].id == 1 + Allocations(steps[..k + 1])
    decreases |steps|
  {
    var n := |steps| - 1;
    var b := Before(s, steps);
    if k == n {
      NextNumber(b, steps[n]);
      CountedNumbers(s, steps);
      assert steps[..k + 1] == steps;
    } else {
      NumberedInOrder(b, steps[..n], c, k);
      CallStays(b, steps[n], c);
      assert steps[..n][..k + 1] == steps[..k + 1];
    }
  }

  // ------------------------------------------------------------------ phases

  /** The steps that a call takes itself. */
  predicate Own<C(==)>(step: Step<C>, c: C) { !step.Arrive? && !step.Deliver? && step.ch == c }

  /** Where a call stands after a step of its own. */
  predicate PhaseAfter<C>(step: Step<C>, p: Phase) {
    match step
    case Allocate(_) => p.Numbered?
    case Register(_) => p.Sending?
    case Sent(_) => p.Waiting?
    case FailMarshal(_) => p.Done? && p.outcome == MarshalFailed
    case FailSend(_) => p.Leaving? && p.outcome == SendFailed
    case GiveUp(_, why) => p.Leaving? && p.outcome == why
    case Receive(_) => p.Leaving? && p.outcome.Reply?
    case Forget(_) => p.Done?
    case _ => true
  }

  lemma PhaseStep<C(!new)>(b: State<C>, step: Step<C>, c: C)
    requires Enabled(b, step)
    ensures var t := Apply(b, step);
            && (Own(step, c) ==> c in t.calls && PhaseAfter(step, t.calls[c]))
            && (!Own(step, c) && c in b.calls ==> c in t.calls && t.calls[c] == b.calls[c])
  {
  }

  /** A call stands where its own last step has left it; no other caller and no reader moves it. */
  lemma {:induction false} PhaseIsOwnLastStep<C(!new)>(s: State<C>, steps: seq<Step<C>>, c: C, k: nat)
    requires Reaches(s, steps) && k < |steps| && Own(steps[k], c) && forall j | k < j < |steps| :: !Own(steps[j], c)
    ensures c in s.calls && PhaseAfter(steps[k], s.calls[c])
    decreases |steps|
  {
    var n := |steps| - 1;
    var b := Before(s, steps);
    PhaseStep(b, steps[n], c);
    if k == n {
    } else {
      PhaseIsOwnLastStep(b, steps[..n], c, k);
    }
  }

  /** At every phase the next step and every failure are possible, whatever the rest of the state is; and so is the
      arrival of any message at a reader that holds none. */
  lemma NothingIsRuledOut<C(!new)>(s: State<C>, c: C, r: nat, m: Message)
    ensures c !in s.calls ==> Enabled(s, Allocate(c))
    ensures c in s.calls && s.calls[c].Numbered? ==> Enabled(s, Register(c)) && Enabled(s, FailMarshal(c))
    ensures c in s.calls && s.calls[c].Sending? ==> Enabled(s, Sent(c)) && Enabled(s, FailSend(c))
    ensures c in s.calls && s.calls[c].Waiting? ==> Enabled(s, GiveUp(c, TimedOut)) && Enabled(s, GiveUp(c, Cancelled))
    ensures c in s.calls && s.calls[c].Leaving? ==> Enabled(s, Forget(c))
    ensures r !in s.held ==> Enabled(s, Arrive(r, m))
  {
  }

  /** The messages that have arrived, in order. */
  function Arrivals<C>(steps: seq<Step<C>>): seq<Message> {
    if steps == [] then []
    else
      var last := steps[|steps| - 1];
      Arrivals(steps[..|steps| - 1]) + if last.Arrive? then [last.msg] else []
  }

  lemma {:induction false} ArrivedIsTrace<C(!new)>(s: State<C>, steps: seq<Step<C>>)
    requires Reaches(s, steps)
    ensures s.arrived == Arrivals(steps)
    decreases |steps|
  {
    if steps == [] {
    } else {
      var b := Before(s, steps);
      ArrivedIsTrace(b, steps[..|steps| - 1]);
    }
  }

  /** How a call failed is what its caller is told, also after the clean-up. */
  predicate FailedBy<C(==)>(step: Step<C>, c: C, why: Outcome) {
    || (step == FailMarshal(c) && why == MarshalFailed)
    || (step == FailSend(c) && why == SendFailed)
    || step == GiveUp(c, why)
  }

  predicate Ended<C(==)>(s: State<C>, c: C, why: Outcome) {
    c in s.calls && (s.calls[c].Leaving? || s.calls[c].Done?) && s.calls[c].outcome == why
  }

  lemma EndedStep<C(!new)>(b: State<C>, step: Step<C>, c: C, why: Outcome)
    requires Enabled(b, step) && (FailedBy(step, c, why) || Ended(b, c, why))
    ensures Ended(Apply(b, step), c, why)
  {
  }

  lemma {:induction false} FailureIsReported<C(!new)>(s: State<C>, steps: seq<Step<C>>, c: C, k: nat, why: Outcome)
    requires Reaches(s, steps) && k < |steps| && FailedBy(steps[k], c, why)
    ensures Ended(s, c, why)
    decreases |steps|
  {
    var n := |steps| - 1;
    var b := Before(s, steps);
    if k == n {
    } else {
      FailureIsReported(b, steps[..n], c, k, why);
    }
    EndedStep(b, steps[n], c, why);
  }

  // ------------------------------------------------------------------ the reply

  /** From its registration until its clean-up a call is in the map, unless a message with its id arrives. */
  lemma {:induction false} RegisteredStays<C(!new)>(s: State<C>, steps: seq<Step<C>>, i: nat, c: C)
    requires Reaches(s, steps) && i < |steps| && steps[i] == Register(c) && c in s.calls
    requires forall k | i < k < |steps| ::
               steps[k] != Forget(c) && !(steps[k].Arrive? && steps[k].msg.id == s.calls[c].id)
    ensures s.table.Find(s.calls[c].id) == Some(c)
    decreases |steps|
  {
    var n := |steps| - 1;
    var b := Before(s, steps);
    if i == n {
    } else {
      RegisteredIsCall(b, steps[..n], i, c);
      CallStays(b, steps[n], c);
      RegisteredStays(b, steps[..n], i, c);
      InvReached(b, steps[..n]);
      FindStays(b, steps[n], c);
    }
  }

  lemma {:induction false} RegisteredIsCall<C(!new)>(s: State<C>, steps: seq<Step<C>>, i: nat, c: C)
    requires Reaches(s, steps) && i < |steps| && steps[i] == Register(c)
    ensures c in s.calls
    decreases |steps|
  {
    var n := |steps| - 1;
    var b := Before(s, steps);
    if i == n {
    } else {
      RegisteredIsCall(b, steps[..n], i, c);
      CallStays(b, steps[n], c);
    }
  }

  lemma FindStays<C(!new)>(b: State<C>, step: Step<C>, c: C)
    requires Inv(b) && Enabled(b, step) && c in b.calls && b.table.Find(b.calls[c].id) == Some(c)
    requires step != Forget(c) && !(step.Arrive? && step.msg.id == b.calls[c].id)
    ensures Apply(b, step).table.Find(b.calls[c].id) == Some(c)
  {
  }

  /** A message has been claimed for a call: a reader holds it, or it has been sent on the call's channel. */
  ghost predicate Claimed<C>(s: State<C>, c: C, m: Message) {
    || (exists r :: r in s.held && s.held[r] == Holding(c, m))
    || (c in s.delivered && s.delivered[c] == [m])
  }

  lemma ClaimStays<C(!new)>(b: State<C>, step: Step<C>, c: C, m: Message)
    requires Inv(b) && Enabled(b, step) && c in b.calls && Claimed(b, c, m)
    ensures Claimed(Apply(b, step), c, m)
  {
    var t := Apply(b, step);
    if r :| r in b.held && b.held[r] == Holding(c, m) {
      assert HeldFor(b, c) && CallOk(b, c);
      if step == Deliver(r) {
        assert t.delivered[c] == [m];
      } else {
        assert r in t.held && t.held[r] == Holding(c, m);
      }
    } else {
      assert CallOk(b, c);
      if step.Deliver? {
        assert HeldFor(b, b.held[step.reader].ch) && HeldOk(b, step.reader);
        assert CallOk(b, b.held[step.reader].ch);
      }
    }
  }

  lemma ClaimOnArrival<C(!new)>(b: State<C>, step: Step<C>, c: C)
    requires Enabled(b, step) && step.Arrive? && b.table.Find(step.msg.id) == Some(c)
    ensures Claimed(Apply(b, step), c, step.msg)
  {
    assert Apply(b, step).held[step.reader] == Holding(c, step.msg);
  }

  lemma ClaimMeans<C(!new)>(s: State<C>, c: C, m: Message)
    requires Inv(s) && c in s.calls && Claimed(s, c, m)
    ensures s.table.Find(s.calls[c].id) != Some(c)
    ensures s.calls[c].Answered() ==> s.calls[c].outcome.msg == m
  {
    assert CallOk(s, c);
    if r :| r in s.held && s.held[r] == Holding(c, m) {
      assert HeldFor(s, c);
    }
  }

  lemma {:induction false} FirstReplyStays<C(!new)>(s: State<C>, steps: seq<Step<C>>, i: nat, j: nat, c: C, m: Message)
    requires Reaches(s, steps) && i < j < |steps| && steps[i] == Register(c) && c in s.calls
    requires steps[j].Arrive? && steps[j].msg == m && m.id == s.calls[c].id
    requires forall k | i < k < j :: steps[k] != Forget(c) && !(steps[k].Arrive? && steps[k].msg.id == m.id)
    ensures Claimed(s, c, m)
    decreases |steps|
  {
    var n := |steps| - 1;
    var b := Before(s, steps);
    RegisteredIsCall(b, steps[..n], i, c);
    CallStays(b, steps[n], c);
    if j == n {
      RegisteredStays(b, steps[..n], i, c);
      ClaimOnArrival(b, steps[n], c);
    } else {
      FirstReplyStays(b, steps[..n], i, j, c, m);
      InvReached(b, steps[..n]);
      ClaimStays(b, steps[n], c, m);
    }
  }

  /** The first message that bears a call's id after its registration, and before its clean-up, is claimed for that
      call, stays claimed through any further steps, and is the one that the call returns if it returns any. */
  lemma FirstReplyIsClaimed<C(!new)>(s: State<C>, steps: seq<Step<C>>, i: nat, j: nat, c: C, m: Message)
    requires Reaches(s, steps) && i < j < |steps| && steps[i] == Register(c) && c in s.calls
    requires steps[j].Arrive? && steps[j].msg == m && m.id == s.calls[c].id
    requires forall k | i < k < j :: steps[k] != Forget(c) && !(steps[k].Arrive? && steps[k].msg.id == m.id)
    ensures Claimed(s, c, m) && s.table.Find(s.calls[c].id) != Some(c)
    ensures s.calls[c].Answered() ==> s.calls[c].outcome.msg == m
  {
    FirstReplyStays(s, steps, i, j, c, m);
    InvReached(s, steps);
    ClaimMeans(s, c, m);
  }

  lemma DoneStep<C(!new)>(b: State<C>, step: Step<C>, c: C)
    requires Enabled(b, step) && (step == Forget(c) || (c in b.calls && b.calls[c].Done?))
    ensures c in Apply(b, step).calls && Apply(b, step).calls[c].Done?
  {
  }

  lemma {:induction false} ForgottenStaysDone<C(!new)>(s: State<C>, steps: seq<Step<C>>, k: nat, c: C)
    requires Reaches(s, steps) && k < |steps| && steps[k] == Forget(c)
    ensures c in s.calls && s.calls[c].Done?
    decreases |steps|
  {
    var n := |steps| - 1;
    var b := Before(s, steps);
    if k == n {
    } else {
      ForgottenStaysDone(b, steps[..n], k, c);
    }
    DoneStep(b, steps[n], c);
  }

  /** An entry that is in the map has had no message with its id since its registration. */
  lemma ArrivedMeansGone<C(!new)>(s: State<C>, steps: seq<Step<C>>, i: nat, j: nat, c: C)
    requires Reaches(s, steps) && i < j < |steps| && steps[i] == Register(c) && c in s.calls
    requires steps[j].Arrive? && steps[j].msg.id == s.calls[c].id
    ensures s.table.Find(s.calls[c].id) != Some(c)
    decreases j
  {
    if k :| i < k < j && steps[k] == Forget(c) {
      ForgottenStaysDone(s, steps, k, c);
      NothingLeaks(s, steps);
    } else if k :| i < k < j && steps[k].Arrive? && steps[k].msg.id == s.calls[c].id {
      ArrivedMeansGone(s, steps, i, k, c);
    } else {
      FirstReplyIsClaimed(s, steps, i, j, c, steps[j].msg);
    }
  }

  /** A waiting call whose reply has been sent can receive it, and then returns it. */
  lemma WaitingCallCanReceive<C(!new)>(s: State<C>, steps: seq<Step<C>>, c: C, m: Message)
    requires Reaches(s, steps) && c in s.calls && s.calls[c].Waiting? && c in s.delivered && s.delivered[c] == [m]
    ensures Enabled(s, Receive(c))
    ensures Apply(s, Receive(c)).calls[c] == Leaving(s.calls[c].id, Reply(m))
  {
    InvReached(s, steps);
    assert CallOk(s, c);
  }
}
