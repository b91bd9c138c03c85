/** How concurrent callers of an MCP client are matched with the replies its reader goroutines find on the
    connection: jsonRPC and dispatchResponse of internal/mcp/sse_client.go and internal/mcp/stdio_client.go.
    The rule is section 5 of the JSON-RPC 2.0 Specification: a response carries the id of its request. */
module Correlation {
  import opened Options

  /** A message whose id parsed as an integer; a null id parses as 0. */
  datatype Message = Message(id: int, body: string)

  // ------------------------------------------------------------------ the table that callers and readers share

  /** The id counter and the `responses` map, which leads from an id to the channel of the call waiting on it. */
  datatype Table<!C> = Table(nextId: int, responses: map<int, C>) {
    function Allocate(): Table<C> { this.(nextId := nextId + 1) }

    function Put(id: int, ch: C): Table<C> { this.(responses := responses[id := ch]) }

    function Without(id: int): Table<C> { this.(responses := responses - {id}) }

    function Find(id: int): Option<C> { if id in responses then Some(responses[id]) else None }
  }

  /** A channel of capacity one. */
  class Channel {
    var slot: seq<Message>

    constructor ()
      ensures slot == []
    {
      slot := [];
    }
  }

  class Client {
    var nextID: int
    var responses: map<int, Channel>

    constructor ()
      ensures View() == Table(1, map[])
    {
      nextID, responses := 1, map[];
    }

    ghost function View(): Table<Channel>
      reads this
    {
      Table(nextID, responses)
    }

    /** The atomic increment that numbers a request. */
    method NextId() returns (id: int)
      modifies this`nextID
      ensures View() == old(View()).Allocate() && id == View().nextId
    {
      nextID := nextID + 1;
      id := nextID;
    }

    /** The critical section that registers a call before its request is sent. */
    method Register(id: int) returns (ch: Channel)
      modifies this`responses
      ensures fresh(ch) && ch.slot == [] && View() == old(View()).Put(id, ch)
    {
      ch := new Channel();
      responses := responses[id := ch];
    }

    /** The critical section in which a reader claims the call a message answers, if any. */
    method Claim(id: int) returns (ch: Option<Channel>)
      modifies this`responses
      ensures ch == old(View()).Find(id)
      ensures View() == if ch.Some? then old(View()).Without(id) else old(View())
    {
      if id in responses {
        ch := Some(responses[id]);
        responses := responses - {id};
      } else {
        ch := None;
      }
    }

    /** The deferred delete. */
    method Forget(id: int)
      modifies this`responses
      ensures View() == old(View()).Without(id)
    {
      responses := responses - {id};
    }
  }

  // ------------------------------------------------------------------ the protocol

  datatype Outcome = Reply(msg: Message) | MarshalFailed | SendFailed | TimedOut | Cancelled

  /** Where one run of jsonRPC stands. */
  datatype Phase =
    | Numbered(id: int)
    | Sending(id: int)
    | Waiting(id: int)
    | Leaving(id: int, outcome: Outcome)
    | Done(id: int, outcome: Outcome)
  {
    predicate Pending() { Sending? || Waiting? }
    predicate Answered() { (Leaving? || Done?) && outcome.Reply? }
  }

  /** A reader between its critical section and its send on the channel. */
  datatype Holding<!C> = Holding(ch: C, msg: Message)

  /** `delivered` records every message ever sent on a call's channel, `arrived` every message ever read. */
  datatype State<!C> = State(
    table: Table<C>,
    calls: map<C, Phase>,
    slots: map<C, seq<Message>>,
    held: map<nat, Holding<C>>,
    delivered: map<C, seq<Message>>,
    arrived: seq<Message>)

  datatype Step<!C> =
    | Allocate(ch: C)
    | FailMarshal(ch: C)
    | Register(ch: C)
    | Sent(ch: C)
    | FailSend(ch: C)
    | Arrive(reader: nat, msg: Message)
    | Deliver(reader: nat)
    | Receive(ch: C)
    | GiveUp(ch: C, why: Outcome)
    | Forget(ch: C)

  ghost predicate Enabled<C>(s: State<C>, step: Step<C>) {
    match step
    case Allocate(ch) => ch !in s.calls
    case FailMarshal(ch) => ch in s.calls && s.calls[ch].Numbered?
    case Register(ch) => ch in s.calls && s.calls[ch].Numbered?
    case Sent(ch) => ch in s.calls && s.calls[ch].Sending?
    case FailSend(ch) => ch in s.calls && s.calls[ch].Sending?
    case Arrive(r, m) => r !in s.held
    case Deliver(r) =>
      r in s.held && s.held[r].ch in s.slots && s.held[r].ch in s.delivered && s.slots[s.held[r].ch] == []
    case Receive(ch) => ch in s.calls && s.calls[ch].Waiting? && ch in s.slots && s.slots[ch] != []
    case GiveUp(ch, why) => ch in s.calls && s.calls[ch].Waiting? && (why.TimedOut? || why.Cancelled?)
    case Forget(ch) => ch in s.calls && s.calls[ch].Leaving?
  }

  ghost function Apply<C>(s: State<C>, step: Step<C>): State<C>
    requires Enabled(s, step)
  {
    match step
    case Allocate(ch) =>
      s.(table := s.table.Allocate(), calls := s.calls[ch := Numbered(s.table.Allocate().nextId)],
         slots := s.slots[ch := []], delivered := s.delivered[ch := []])
    case FailMarshal(ch) =>
      s.(calls := s.calls[ch := Done(s.calls[ch].id, MarshalFailed)])
    case Register(ch) =>
      s.(table := s.table.Put(s.calls[ch].id, ch), calls := s.calls[ch := Sending(s.calls[ch].id)])
    case Sent(ch) =>
      s.(calls := s.calls[ch := Waiting(s.calls[ch].id)])
    case FailSend(ch) =>
      s.(calls := s.calls[ch := Leaving(s.calls[ch].id, SendFailed)])
    case Arrive(r, m) =>
      var found := s.table.Find(m.id);
      if found.Some?
      then s.(table := s.table.Without(m.id), held := s.held[r := Holding(found.value, m)], arrived := s.arrived + [m])
      else s.(arrived := s.arrived + [m])
    case Deliver(r) =>
      var h := s.held[r];
      s.(held := s.held - {r}, slots := s.slots[h.ch := s.slots[h.ch] + [h.msg]],
         delivered := s.delivered[h.ch := s.delivered[h.ch] + [h.msg]])
    case Receive(ch) =>
      s.(calls := s.calls[ch := Leaving(s.calls[ch].id, Reply(s.slots[ch][0]))],
         slots := s.slots[ch := s.slots[ch][1..]])
    case GiveUp(ch, why) =>
      s.(calls := s.calls[ch := Leaving(s.calls[ch].id, why)])
    case Forget(ch) =>
      s.(table := s.table.Without(s.calls[ch].id), calls := s.calls[ch := Done(s.calls[ch].id, s.calls[ch].outcome)])
  }

  ghost function Initial<C>(): State<C> {
    State(Table(1, map[]), map[], map[], map[], map[], [])
  }

  /** The state after some interleaving of steps, each enabled when it is taken. */
  ghost predicate Reaches<C(!new)>(s: State<C>, steps: seq<Step<C>>)
    decreases |steps|
  {
    if steps == [] then s == Initial()
    else
      var last := |steps| - 1;
      exists before: State<C> {:trigger Enabled(before, steps[last])} ::
        Reaches(before, steps[..last]) && Enabled(before, steps[last]) && s == Apply(before, steps[last])
  }

  // ------------------------------------------------------------------ the invariant

  ghost predicate HeldFor<C>(s: State<C>, ch: C) {
    exists r :: r in s.held && s.held[r].ch == ch
  }

  /** Every call's reply is in exactly one place: not asked for, awaited, held by a reader, in the slot, or taken. */
  ghost predicate CallOk<C>(s: State<C>, ch: C)
    requires ch in s.calls
  {
    var p := s.calls[ch];
    var awaited := p.id in s.table.responses;
    && ch in s.slots && ch in s.delivered
    && 2 <= p.id <= s.table.nextId
    && |s.delivered[ch]| <= 1
    && (s.delivered[ch] != [] ==> s.delivered[ch][0].id == p.id && s.delivered[ch][0] in s.arrived)
    && s.slots[ch] == (if p.Answered() then [] else s.delivered[ch])
    && (p.Answered() ==> s.delivered[ch] == [p.outcome.msg])
    && (awaited ==> s.delivered[ch] == [] && !HeldFor(s, ch) && s.table.responses[p.id] == ch)
    && (HeldFor(s, ch) ==> s.delivered[ch] == [])
    && (p.Numbered? ==> !awaited && !HeldFor(s, ch) && s.delivered[ch] == [])
    && (p.Done? ==> !awaited)
    && (p.Pending() ==> awaited || HeldFor(s, ch) || s.delivered[ch] != [])
  }

  ghost predicate HeldOk<C>(s: State<C>, r: nat)
    requires r in s.held
  {
    var h := s.held[r];
    && h.ch in s.calls && h.msg.id == s.calls[h.ch].id && h.msg in s.arrived
  }

  ghost predicate Inv<C(!new)>(s: State<C>) {
    && s.table.nextId >= 1
    && (forall ch <- s.calls :: CallOk(s, ch))
    && (forall a, b | a in s.calls && b in s.calls && a != b :: s.calls[a].id != s.calls[b].id)
    && (forall id <- s.table.responses :: s.table.responses[id] in s.calls && s.calls[s.table.responses[id]].id == id)
    && (forall r <- s.held :: HeldOk(s, r))
    && (forall q, r | q in s.held && r in s.held && q != r :: s.held[q].ch != s.held[r].ch)
  }

  lemma InvAllocate<C(!new)>(s: State<C>, ch: C)
    requires Inv(s) && ch !in s.calls
    ensures Inv(Apply(s, Allocate(ch)))
  {
    var t := Apply(s, Allocate(ch));
    forall c | c in t.calls ensures CallOk(t, c) {
      if c != ch { assert CallOk(s, c); assert HeldFor(t, c) == HeldFor(s, c); }
    }
    forall r | r in t.held ensures HeldOk(t, r) { assert HeldOk(s, r); }
  }

  /** Steps of a caller that leave the table, the readers and the channels alone. */
  lemma InvPhase<C(!new)>(s: State<C>, ch: C, p: Phase)
    requires Inv(s) && ch in s.calls && p.id == s.calls[ch].id && !p.Answered() && !s.calls[ch].Answered()
    requires (s.calls[ch].Numbered? && p.Done?) || (s.calls[ch].Pending() && (p.Waiting? || p.Leaving?))
    ensures Inv(s.(calls := s.calls[ch := p]))
  {
    var t := s.(calls := s.calls[ch := p]);
    forall c | c in t.calls ensures CallOk(t, c) {
      assert CallOk(s, c);
      assert HeldFor(t, c) == HeldFor(s, c);
    }
    forall r | r in t.held ensures HeldOk(t, r) { assert HeldOk(s, r); }
  }

  lemma InvRegister<C(!new)>(s: State<C>, ch: C)
    requires Inv(s) && Enabled(s, Register(ch))
    ensures Inv(Apply(s, Register(ch)))
  {
    var t := Apply(s, Register(ch));
    forall c | c in t.calls ensures CallOk(t, c) {
      assert CallOk(s, c);
      assert HeldFor(t, c) == HeldFor(s, c);
    }
    forall r | r in t.held ensures HeldOk(t, r) { assert HeldOk(s, r); }
  }

  lemma InvArrive<C(!new)>(s: State<C>, r: nat, m: Message)
    requires Inv(s) && r !in s.held
    ensures Inv(Apply(s, Arrive(r, m)))
  {
    var t := Apply(s, Arrive(r, m));
    forall c | c in t.calls ensures CallOk(t, c) {
      assert CallOk(s, c);
      if m.id in s.table.responses && s.table.responses[m.id] == c {
        assert t.held[r].ch == c;
      } else {
        assert HeldFor(t, c) == HeldFor(s, c) by {
          if HeldFor(s, c) { var q :| q in s.held && s.held[q].ch == c; assert t.held[q].ch == c; }
          if HeldFor(t, c) { var q :| q in t.held && t.held[q].ch == c; assert q in s.held; }
        }
      }
    }
    forall q | q in t.held ensures HeldOk(t, q) {
      if q in s.held { assert HeldOk(s, q); }
    }
    forall p, q | p in t.held && q in t.held && p != q ensures t.held[p].ch != t.held[q].ch {
      if m.id in s.table.responses {
        assert CallOk(s, s.table.responses[m.id]);
      }
    }
  }

  lemma InvDeliver<C(!new)>(s: State<C>, r: nat)
    requires Inv(s) && Enabled(s, Deliver(r))
    ensures Inv(Apply(s, Deliver(r)))
  {
    var t := Apply(s, Deliver(r));
    var h := s.held[r];
    assert HeldOk(s, r) && HeldFor(s, h.ch);
    forall c | c in t.calls ensures CallOk(t, c) {
      assert CallOk(s, c);
      if c == h.ch {
        assert !HeldFor(t, c);
      } else {
        assert HeldFor(t, c) == HeldFor(s, c) by {
          if HeldFor(s, c) { var q :| q in s.held && s.held[q].ch == c; assert q in t.held; }
        }
      }
    }
    forall q | q in t.held ensures HeldOk(t, q) { assert HeldOk(s, q); }
  }

  lemma InvReceive<C(!new)>(s: State<C>, ch: C)
    requires Inv(s) && Enabled(s, Receive(ch))
    ensures Inv(Apply(s, Receive(ch)))
  {
    var t := Apply(s, Receive(ch));
    assert CallOk(s, ch);
    assert s.slots[ch][1..] == [];
    forall c | c in t.calls ensures CallOk(t, c) {
      assert CallOk(s, c);
      assert HeldFor(t, c) == HeldFor(s, c);
    }
    forall r | r in t.held ensures HeldOk(t, r) { assert HeldOk(s, r); }
  }

  lemma InvForget<C(!new)>(s: State<C>, ch: C)
    requires Inv(s) && Enabled(s, Forget(ch))
    ensures Inv(Apply(s, Forget(ch)))
  {
    var t := Apply(s, Forget(ch));
    forall c | c in t.calls ensures CallOk(t, c) {
      assert CallOk(s, c);
      assert HeldFor(t, c) == HeldFor(s, c);
    }
    forall r | r in t.held ensures HeldOk(t, r) { assert HeldOk(s, r); }
  }

  lemma InvStep<C(!new)>(s: State<C>, step: Step<C>)
    requires Inv(s) && Enabled(s, step)
    ensures Inv(Apply(s, step))
  {
    match step
    case Allocate(ch) => InvAllocate(s, ch);
    case Register(ch) => InvRegister(s, ch);
    case Arrive(r, m) => InvArrive(s, r, m);
    case Deliver(r) => InvDeliver(s, r);
    case Receive(ch) => InvReceive(s, ch);
    case Forget(ch) => InvForget(s, ch);
    case FailMarshal(ch) => InvPhase(s, ch, Apply(s, step).calls[ch]);
    case Sent(ch) => InvPhase(s, ch, Apply(s, step).calls[ch]);
    case FailSend(ch) => InvPhase(s, ch, Apply(s, step).calls[ch]);
    case GiveUp(ch, why) => InvPhase(s, ch, Apply(s, step).calls[ch]);
  }

  lemma {:induction false} InvReached<C(!new)>(s: State<C>, steps: seq<Step<C>>)
    requires Reaches(s, steps)
    ensures Inv(s)
    decreases |steps|
  {
    if steps == [] {
    } else {
      var last := |steps| - 1;
      var before: State<C> :| Reaches(before, steps[..last]) && Enabled(before, steps[last])
                              && s == Apply(before, steps[last]);
      InvReached(before, steps[..last]);
      InvStep(before, steps[last]);
    }
  }

  // ------------------------------------------------------------------ main results, for every interleaving

  /** Ids are distinct and at least 2, so a message with a null, zero or negative id is never matched. */
  lemma IdsAreDistinct<C(!new)>(s: State<C>, steps: seq<Step<C>>)
    requires Reaches(s, steps)
    ensures forall ch <- s.calls :: s.calls[ch].id >= 2
    ensures forall a, b | a in s.calls && b in s.calls && s.calls[a].id == s.calls[b].id :: a == b
    ensures forall m: Message | m.id < 2 :: s.table.Find(m.id) == None
  {
    InvReached(s, steps);
    forall ch | ch in s.calls ensures s.calls[ch].id >= 2 { assert CallOk(s, ch); }
  }

  /** A reader that has claimed a call can always send at once, and does so at most once per call. */
  lemma DeliveryNeverBlocks<C(!new)>(s: State<C>, steps: seq<Step<C>>)
    requires Reaches(s, steps)
    ensures forall r <- s.held :: Enabled(s, Deliver(r))
    ensures forall ch <- s.calls :: ch in s.delivered && |s.delivered[ch]| <= 1
  {
    InvReached(s, steps);
    forall r | r in s.held ensures Enabled(s, Deliver(r)) {
      assert HeldOk(s, r);
      assert HeldFor(s, s.held[r].ch);
      assert CallOk(s, s.held[r].ch);
    }
    forall ch | ch in s.calls ensures ch in s.delivered && |s.delivered[ch]| <= 1 { assert CallOk(s, ch); }
  }

  /** A call returns only a message that was really read from the connection and bears its own id. */
  lemma RepliesMatchRequests<C(!new)>(s: State<C>, steps: seq<Step<C>>)
    requires Reaches(s, steps)
    ensures forall ch <- s.calls | s.calls[ch].Answered() ::
              s.calls[ch].outcome.msg.id == s.calls[ch].id && s.calls[ch].outcome.msg in s.arrived
    ensures forall a, b | a in s.calls && b in s.calls && s.calls[a].Answered() && s.calls[b].Answered()
                          && s.calls[a].outcome.msg == s.calls[b].outcome.msg :: a == b
  {
    InvReached(s, steps);
    forall ch | ch in s.calls && s.calls[ch].Answered()
      ensures s.calls[ch].outcome.msg.id == s.calls[ch].id && s.calls[ch].outcome.msg in s.arrived
    {
      assert CallOk(s, ch);
    }
  }

  /** A finished call leaves nothing in the map, so nothing is left once every call has finished. */
  lemma NothingLeaks<C(!new)>(s: State<C>, steps: seq<Step<C>>)
    requires Reaches(s, steps)
    ensures forall ch <- s.calls | s.calls[ch].Done? :: s.calls[ch].id !in s.table.responses
    ensures (forall ch <- s.calls :: s.calls[ch].Done?) ==> s.table.responses == map[]
  {
    InvReached(s, steps);
    forall ch | ch in s.calls && s.calls[ch].Done? ensures s.calls[ch].id !in s.table.responses {
      assert CallOk(s, ch);
    }
    forall id | id in s.table.responses
      ensures s.table.responses[id] in s.calls && !s.calls[s.table.responses[id]].Done?
    {
      assert CallOk(s, s.table.responses[id]);
    }
  }

  /** No reply is lost: the first message bearing a pending call's id is on its way to that call until it gives up. */
  lemma NoReplyIsLost<C(!new)>(s: State<C>, steps: seq<Step<C>>, ch: C)
    requires Reaches(s, steps) && ch in s.calls && s.calls[ch].Pending()
    ensures s.table.Find(s.calls[ch].id) == Some(ch)
            || (exists r <- s.held :: s.held[r].ch == ch && s.held[r].msg.id == s.calls[ch].id)
            || (ch in s.slots && |s.slots[ch]| == 1 && s.slots[ch][0].id == s.calls[ch].id)
    ensures s.table.Find(s.calls[ch].id) == Some(ch) || exists m <- s.arrived :: m.id == s.calls[ch].id
  {
    InvReached(s, steps);
    assert CallOk(s, ch);
    if HeldFor(s, ch) {
      var r :| r in s.held && s.held[r].ch == ch;
      assert HeldOk(s, r);
      assert s.held[r].msg in s.arrived;
    }
  }
}
