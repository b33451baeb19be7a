/** The app-server client's reply multiplexer: many callers wait on their own one-slot channels,
    one reader hands out replies by id (agent/internal/appserver/client.go). */
module Rpc {
  import opened Wrappers
  import opened Decimal

  /** A reply as the peer sent it: a result or an app-server error, verbatim. */
  datatype Reply = Result(json: string) | Failure(code: int, message: string)

  /** What a caller's channel can hold. */
  datatype Delivery = Answer(reply: Reply) | EndOfInput

  datatype Outcome = Completed(delivery: Delivery) | WriteFailed | ContextEnded

  /** A call from the moment it has its id: not yet in the table, in the table before its message is written,
      waiting, done waiting but with its deferred removal still to run, or returned. */
  datatype Call = Allocated | Registered | Waiting | Leaving(outcome: Outcome) | Returned(outcome: Outcome)

  /** The reader between two lines, between looking a channel up and sending on it, or past the end of input. */
  datatype Reader = Reading | Sending(id: nat, reply: Reply) | Finished

  /** `slots` are the channels by the id of the call that made them. `heard` is every reply read so far
      and `swept` the calls that were in the table at the end of input. */
  datatype Rpc = Rpc(nextId: nat, calls: map<nat, Call>, pending: map<string, nat>, slots: map<nat, Option<Delivery>>,
                     reader: Reader, heard: seq<(string, Reply)>, swept: set<nat>)

  datatype Step =
    | Allocate
    | Register(id: nat)
    | Write(id: nat, ok: bool)
    | Take(id: nat)
    | Cancel(id: nat)
    | Leave(id: nat)
    | Hear(key: string, reply: Reply)
    | Deliver
    | EndInput

  predicate At(s: Rpc, id: nat, call: Call) {
    id in s.calls && s.calls[id] == call
  }

  predicate Enabled(s: Rpc, step: Step) {
    match step
    case Allocate => true
    case Register(id) => At(s, id, Allocated)
    case Write(id, _) => At(s, id, Registered)
    case Take(id) => At(s, id, Waiting) && id in s.slots && s.slots[id].Some?
    case Cancel(id) => At(s, id, Waiting)
    case Leave(id) => id in s.calls && s.calls[id].Leaving?
    case Hear(_, _) => s.reader.Reading?
    case Deliver => s.reader.Sending? && (s.reader.id in s.slots ==> s.slots[s.reader.id] == None)
    case EndInput => s.reader.Reading?
  }

  /** failPending: a non-blocking send to every registered channel. */
  function Swept(pending: map<string, nat>, slots: map<nat, Option<Delivery>>): map<nat, Option<Delivery>> {
    map id | id in slots :: if id in pending.Values && slots[id] == None then Some(EndOfInput) else slots[id]
  }

  function After(s: Rpc, step: Step): Rpc
    requires Enabled(s, step)
  {
    match step
    case Allocate => s.(nextId := s.nextId + 1, calls := s.calls[s.nextId + 1 := Allocated])
    case Register(id) => s.(calls := s.calls[id := Registered], pending := s.pending[Render(id) := id],
                            slots := s.slots[id := None])
    case Write(id, ok) => s.(calls := s.calls[id := if ok then Waiting else Leaving(WriteFailed)])
    case Take(id) => s.(calls := s.calls[id := Leaving(Completed(s.slots[id].value))], slots := s.slots[id := None])
    case Cancel(id) => s.(calls := s.calls[id := Leaving(ContextEnded)])
    case Leave(id) => s.(calls := s.calls[id := Returned(s.calls[id].outcome)], pending := s.pending - {Render(id)})
    case Hear(key, reply) =>
      s.(heard := s.heard + [(key, reply)], reader := if key in s.pending then Sending(s.pending[key], reply)
         else Reading)
    case Deliver => s.(slots := s.slots[s.reader.id := Some(Answer(s.reader.reply))], reader := Reading)
    case EndInput => s.(slots := Swept(s.pending, s.slots), reader := Finished, swept := s.pending.Values)
  }

  /** failPending, channel by channel. */
  method FailPending(pending: map<string, nat>, slots: map<nat, Option<Delivery>>)
      returns (after: map<nat, Option<Delivery>>)
    requires pending.Values <= slots.Keys
    ensures after == Swept(pending, slots)
  {
    after := slots;
    var todo := pending.Keys;
    while todo != {}
      invariant todo <= pending.Keys && after.Keys == slots.Keys
      invariant forall id :: id in slots ==>
                after[id] == slots[id] || (after[id] == Some(EndOfInput) && slots[id] == None && id in pending.Values)
      invariant forall key :: key in pending && key !in todo ==> after[pending[key]] != None
    {
      var key :| key in todo;
      todo := todo - {key};
      if after[pending[key]] == None {
        after := after[pending[key] := Some(EndOfInput)];
      }
    }
    forall id | id in slots ensures after[id] == Swept(pending, slots)[id] {
      if id in pending.Values {
        var key :| key in pending && pending[key] == id;
        assert after[pending[key]] != None;
      }
    }
  }

  ghost predicate Initial(s: Rpc) {
    s == Rpc(0, map[], map[], map[], Reading, [], {})
  }

  /** States joined by steps. */
  ghost predicate Path(states: seq<Rpc>, steps: seq<Step>) {
    && |states| == |steps| + 1
    && (forall i {:trigger steps[i]} :: 0 <= i < |steps| ==>
          Enabled(states[i], steps[i]) && states[i + 1] == After(states[i], steps[i]))
  }

  ghost predicate Run(states: seq<Rpc>, steps: seq<Step>) {
    Path(states, steps) && Initial(states[0])
  }

  // ---- Invariant ----

  predicate InTable(call: Call) {
    call.Registered? || call.Waiting? || call.Leaving?
  }

  /** The reply was read under exactly this call's id, before the one being sent if any. */
  predicate HeardFor(heard: seq<(string, Reply)>, n: nat, id: nat, reply: Reply)
    requires n <= |heard|
  {
    exists k :: 0 <= k < n && heard[k] == (Render(id), reply)
  }

  /** How many of the replies read have been dealt with. */
  function Settled(s: Rpc): nat {
    if s.reader.Sending? && s.heard != [] then |s.heard| - 1 else |s.heard|
  }

  /** The table holds exactly the calls between their registration and their return, each under its own id. */
  predicate TableInv(s: Rpc) {
    && (forall key :: key in s.pending ==>
        s.pending[key] in s.calls && InTable(s.calls[s.pending[key]]) && key == Render(s.pending[key]))
    && (forall id :: id in s.calls && InTable(s.calls[id]) ==> Render(id) in s.pending)
    && (forall id :: id in s.calls ==> 0 < id <= s.nextId && (s.calls[id].Allocated? <==> id !in s.slots))
    && (forall id :: id in s.slots ==> id in s.calls)
  }

  predicate DeliveryInv(s: Rpc, id: nat, delivery: Delivery) {
    match delivery
    case Answer(reply) => HeardFor(s.heard, Settled(s), id, reply)
    case EndOfInput => s.reader.Finished? && id in s.swept
  }

  predicate SlotsInv(s: Rpc) {
    && (forall id :: id in s.slots && s.slots[id].Some? ==> DeliveryInv(s, id, s.slots[id].value))
    && (forall id ::
          id in s.calls && (s.calls[id].Leaving? || s.calls[id].Returned?) && s.calls[id].outcome.Completed? ==>
            DeliveryInv(s, id, s.calls[id].outcome.delivery))
  }

  predicate ReaderInv(s: Rpc) {
    && (s.reader.Sending? ==>
        s.heard != [] && s.heard[|s.heard| - 1] == (Render(s.reader.id), s.reader.reply) && s.reader.id in s.slots)
    && (!s.reader.Finished? ==> s.swept == {})
    && (forall id :: id in s.swept ==> Freed(s, id))
  }

  /** A call that need not wait any longer. */
  predicate Freed(s: Rpc, id: nat) {
    && id in s.calls && id in s.slots
    && (s.calls[id].Leaving? || s.calls[id].Returned? || (InTable(s.calls[id]) && s.slots[id].Some?))
  }

  predicate Inv(s: Rpc) {
    TableInv(s) && SlotsInv(s) && ReaderInv(s)
  }

  lemma TableKept(s: Rpc, step: Step)
    requires TableInv(s) && Enabled(s, step) && (s.reader.Sending? ==> s.reader.id in s.slots)
    ensures TableInv(After(s, step))
  {
    hide Render, Swept, Value, After;
    forall a: nat ensures Value(Render(a)) == a {
      ValueOfRender(a);
    }
    match step
    case Register(id) => RegisterKeepsTable(s, id);
    case Leave(id) => LeaveKeepsTable(s, id);
    case Allocate => AllocateKeepsTable(s);
    case Write(_, _) => WaitKeepsTable(s, step);
    case Take(_) => WaitKeepsTable(s, step);
    case Cancel(_) => WaitKeepsTable(s, step);
    case _ => ReaderKeepsTable(s, step);
  }

  lemma RegisterKeepsTable(s: Rpc, id: nat)
    requires TableInv(s) && Enabled(s, Register(id)) && (forall a: nat :: Value(Render(a)) == a)
    ensures TableInv(After(s, Register(id)))
  {
    hide Render, Value;
  }

  lemma LeaveKeepsTable(s: Rpc, id: nat)
    requires TableInv(s) && Enabled(s, Leave(id)) && (forall a: nat :: Value(Render(a)) == a)
    ensures TableInv(After(s, Leave(id)))
  {
    hide Render, Value;
  }

  lemma AllocateKeepsTable(s: Rpc)
    requires TableInv(s)
    ensures TableInv(After(s, Allocate))
  {
    hide Render;
  }

  lemma WaitKeepsTable(s: Rpc, step: Step)
    requires TableInv(s) && Enabled(s, step) && (step.Write? || step.Take? || step.Cancel?)
    ensures TableInv(After(s, step))
  {
    hide Render;
    var w' := After(s, step);
    assert InTable(s.calls[step.id]) && InTable(w'.calls[step.id]);
  }

  lemma ReaderKeepsTable(s: Rpc, step: Step)
    requires TableInv(s) && Enabled(s, step) && (step.Hear? || step.Deliver? || step.EndInput?)
    requires s.reader.Sending? ==> s.reader.id in s.slots
    ensures TableInv(After(s, step))
  {
    hide Render, Swept, InTable;
    SweptKeys(s);
  }

  lemma SweptKeys(s: Rpc)
    ensures Swept(s.pending, s.slots).Keys == s.slots.Keys
  {
  }

  lemma DeliveryKept(s: Rpc, step: Step, id: nat, delivery: Delivery)
    requires DeliveryInv(s, id, delivery) && Enabled(s, step) && ReaderInv(s)
    ensures DeliveryInv(After(s, step), id, delivery)
  {
    hide Render, Swept;
    if delivery.Answer? {
      var k :| 0 <= k < Settled(s) && s.heard[k] == (Render(id), delivery.reply);
      assert After(s, step).heard[k] == s.heard[k];
    }
  }

  lemma SlotsKept(s: Rpc, step: Step)
    requires Inv(s) && Enabled(s, step)
    ensures SlotsInv(After(s, step))
  {
    hide Render, DeliveryInv, TableInv;
    var s' := After(s, step);
    forall id | id in s'.slots && s'.slots[id].Some? ensures DeliveryInv(s', id, s'.slots[id].value) {
      if id in s.slots && s'.slots[id] == s.slots[id] {
        DeliveryKept(s, step, id, s.slots[id].value);
      } else {
        NewDelivery(s, step, id);
      }
    }
    forall id | id in s'.calls && (s'.calls[id].Leaving? || s'.calls[id].Returned?) && s'.calls[id].outcome.Completed?
      ensures DeliveryInv(s', id, s'.calls[id].outcome.delivery)
    {
      DeliveryKept(s, step, id, s'.calls[id].outcome.delivery);
    }
  }

  lemma NewDelivery(s: Rpc, step: Step, id: nat)
    requires Inv(s) && Enabled(s, step) && (step.Deliver? || step.EndInput?)
    requires id in After(s, step).slots && After(s, step).slots[id].Some?
             && !(id in s.slots && After(s, step).slots[id] == s.slots[id])
    ensures DeliveryInv(After(s, step), id, After(s, step).slots[id].value)
  {
    hide Render, TableInv;
    var s' := After(s, step);
    if step.Deliver? {
      assert s'.heard[|s.heard| - 1] == (Render(id), s.reader.reply);
    }
  }

  lemma ReaderKept(s: Rpc, step: Step)
    requires Inv(s) && Enabled(s, step)
    ensures ReaderInv(After(s, step))
  {
    hide Render, SlotsInv;
  }

  lemma InvKept(s: Rpc, step: Step)
    requires Inv(s) && Enabled(s, step)
    ensures Inv(After(s, step))
  {
    TableKept(s, step);
    SlotsKept(s, step);
    ReaderKept(s, step);
  }

  lemma {:induction false} InvAlways(states: seq<Rpc>, steps: seq<Step>, i: nat)
    requires Run(states, steps) && i < |states|
    ensures Inv(states[i])
  {
    if i > 0 {
      hide Inv, Enabled, After;
      InvAlways(states, steps, i - 1);
      InvKept(states[i - 1], steps[i - 1]);
    }
  }

  // ---- Theorems ----

  /** A call is completed only by a reply read under its own id, or by the end of input if it was in the table then. */
  lemma RepliesGoToTheirCall(states: seq<Rpc>, steps: seq<Step>, i: nat, id: nat)
    requires Run(states, steps) && i < |states| && id in states[i].calls
    requires states[i].calls[id].Returned? && states[i].calls[id].outcome.Completed?
    ensures match states[i].calls[id].outcome.delivery
            case Answer(reply) => (Render(id), reply) in states[i].heard
            case EndOfInput => states[i].reader.Finished? && id in states[i].swept
  {
    hide Render;
    InvAlways(states, steps, i);
    assert DeliveryInv(states[i], id, states[i].calls[id].outcome.delivery);
  }

  /** The table holds an entry exactly for the calls between registration and return. */
  lemma NoEntryAfterReturn(states: seq<Rpc>, steps: seq<Step>, i: nat, key: string)
    requires Run(states, steps) && i < |states|
    ensures key in states[i].pending <==>
            exists id :: id in states[i].calls && InTable(states[i].calls[id]) && key == Render(id)
  {
    hide Render, Enabled, After, SlotsInv, ReaderInv;
    InvAlways(states, steps, i);
    var s := states[i];
    if key in s.pending {
      assert s.pending[key] in s.calls && InTable(s.calls[s.pending[key]]) && key == Render(s.pending[key]);
    }
  }

  /** A reply to a call that has returned, or to no call at all, is read and forgotten. */
  lemma LateRepliesAreDiscarded(states: seq<Rpc>, steps: seq<Step>, i: nat, key: string, reply: Reply)
    requires Run(states, steps) && i < |states| && states[i].reader.Reading?
    requires forall id :: id in states[i].calls && key == Render(id) ==> !InTable(states[i].calls[id])
    ensures After(states[i], Hear(key, reply)) == states[i].(heard := states[i].heard + [(key, reply)])
  {
    NoEntryAfterReturn(states, steps, i, key);
  }

  predicate AnsweredOnce(heard: seq<(string, Reply)>) {
    forall j, k :: 0 <= j < k < |heard| ==> heard[j].0 != heard[k].0
  }

  /** The reader is never stuck on a full channel while the peer answers each id at most once. */
  lemma ReaderNeverBlocks(states: seq<Rpc>, steps: seq<Step>, i: nat)
    requires Run(states, steps) && i < |states|
    ensures states[i].reader.Sending? && !Enabled(states[i], Deliver) ==> !AnsweredOnce(states[i].heard)
  {
    hide Render, TableInv;
    InvAlways(states, steps, i);
    var s := states[i];
    if s.reader.Sending? && !Enabled(s, Deliver) {
      assert DeliveryInv(s, s.reader.id, s.slots[s.reader.id].value);
      var k :| 0 <= k < Settled(s) && s.heard[k] == (Render(s.reader.id), s.slots[s.reader.id].value.reply);
      assert s.heard[k].0 == s.heard[|s.heard| - 1].0;
    }
  }

  /** After the end of input, every call that was in the table then has its outcome, or finds one in its channel. */
  lemma EndOfInputFreesEveryCall(states: seq<Rpc>, steps: seq<Step>, i: nat, j: nat, key: string)
    requires Run(states, steps) && i < j < |states| && steps[i] == EndInput && key in states[i].pending
    ensures var id := states[i].pending[key]; Freed(states[j], id) && id in states[j].swept
  {
    hide Render, TableInv, SlotsInv;
    InvAlways(states, steps, j);
    SweptStays(states, steps, i + 1, j);
    assert states[i + 1] == After(states[i], steps[i]);
  }

  lemma StepAfterEnd(s: Rpc, step: Step)
    requires Enabled(s, step) && s.reader.Finished?
    ensures After(s, step).reader.Finished? && After(s, step).swept == s.swept
  {
  }

  lemma {:induction false} SweptStays(states: seq<Rpc>, steps: seq<Step>, i: nat, j: nat)
    requires Run(states, steps) && i <= j < |states| && states[i].reader.Finished?
    ensures states[j].reader.Finished? && states[j].swept == states[i].swept
  {
    if i < j {
      hide Enabled, After;
      SweptStays(states, steps, i, j - 1);
      StepAfterEnd(states[j - 1], steps[j - 1]);
    }
  }

  // ---- A peer that answers twice ----

  /** The reader holds a second reply for a caller that is no longer waiting. */
  predicate Stuck(s: Rpc) {
    && s.reader.Sending? && s.reader.id in s.slots && s.slots[s.reader.id].Some?
    && s.reader.id in s.calls && (s.calls[s.reader.id].Leaving? || s.calls[s.reader.id].Returned?)
  }

  lemma StuckStaysOneStep(s: Rpc, step: Step)
    requires Inv(s) && Stuck(s) && Enabled(s, step)
    ensures Stuck(After(s, step)) && After(s, step).reader == s.reader
  {
    hide SlotsInv, ReaderInv, Render, Swept;
  }

  /** Once stuck, the reader holds that reply for good, whatever happens next. */
  lemma {:induction false} StuckStays(states: seq<Rpc>, steps: seq<Step>, i: nat, j: nat)
    requires Run(states, steps) && i <= j < |states| && Stuck(states[i])
    ensures Stuck(states[j]) && states[j].reader == states[i].reader
    decreases j
  {
    hide Inv, Enabled, After, Stuck;
    if i < j {
      StuckStays(states, steps, i, j - 1);
      InvAlways(states, steps, j - 1);
      StuckStaysOneStep(states[j - 1], steps[j - 1]);
    }
  }

  /** From here the reader can come to hold this reply for good. */
  ghost predicate CanStick(s: Rpc, id: nat, reply: Reply) {
    exists states, steps :: SticksOn(states, steps, s, id, reply)
  }

  ghost predicate SticksOn(states: seq<Rpc>, steps: seq<Step>, s: Rpc, id: nat, reply: Reply) {
    && Path(states, steps) && states[0] == s && Stuck(states[|states| - 1])
    && (forall i :: 0 <= i < |states| ==> states[i].reader == Sending(id, reply))
  }

  lemma EntryIsOpen(s: Rpc, key: string)
    requires TableInv(s) && key in s.pending
    ensures s.pending[key] in s.calls && InTable(s.calls[s.pending[key]]) && s.pending[key] in s.slots
  {
    hide Render;
    assert !InTable(Allocated);
  }

  /** A channel the reader is about to send on is filled by nobody else. */
  lemma SlotStaysEmpty(s: Rpc, step: Step, id: nat)
    requires Enabled(s, step) && s.reader.Sending? && After(s, step).reader == s.reader
    requires id == s.reader.id && id in s.slots && s.slots[id] == None
    ensures id in After(s, step).slots && After(s, step).slots[id] == None
  {
    hide Render, Swept;
  }

  lemma {:induction false} EmptySlotNeverSticks(states: seq<Rpc>, steps: seq<Step>, s: Rpc, id: nat, reply: Reply,
                                                i: nat)
    requires SticksOn(states, steps, s, id, reply) && i < |states| && id in s.slots && s.slots[id] == None
    ensures id in states[i].slots && states[i].slots[id] == None
  {
    hide Enabled, After, Stuck;
    if i > 0 {
      EmptySlotNeverSticks(states, steps, s, id, reply, i - 1);
      assert states[i] == After(states[i - 1], steps[i - 1]);
      SlotStaysEmpty(states[i - 1], steps[i - 1], id);
    }
  }

  /** A full channel sticks: its caller can stop waiting without reading it. */
  lemma FullSlotSticks(h: Rpc, id: nat, reply: Reply)
    requires h.reader == Sending(id, reply) && id in h.slots && h.slots[id].Some?
    requires id in h.calls && InTable(h.calls[id])
    ensures CanStick(h, id, reply)
  {
    if h.calls[id].Leaving? {
      assert SticksOn([h], [], h, id, reply);
    } else {
      var step := if h.calls[id].Waiting? then Cancel(id) else Write(id, false);
      assert Enabled(h, step);
      assert SticksOn([h, After(h, step)], [step], h, id, reply);
    }
  }

  lemma StickingStarts(s: Rpc, id: nat, reply: Reply)
    requires CanStick(s, id, reply)
    ensures s.reader == Sending(id, reply)
    ensures id in s.slots ==> s.slots[id].Some?
  {
    hide Enabled, After, Stuck;
    var states: seq<Rpc>, steps: seq<Step> :| SticksOn(states, steps, s, id, reply);
    assert states[0].reader == Sending(id, reply);
    if id in s.slots && s.slots[id] == None {
      EmptySlotNeverSticks(states, steps, s, id, reply, |states| - 1);
      StuckIsFull(states[|states| - 1]);
    }
  }

  lemma StuckIsFull(s: Rpc)
    requires Stuck(s)
    ensures s.slots[s.reader.id] != None
  {
  }

  /** Exactly when a reply the reader has just read can stop it for good: when its id is in the table and the caller's
      channel still holds an unread delivery. */
  lemma ReplyCanStickExactly(s: Rpc, key: string, reply: Reply)
    requires Inv(s) && s.reader.Reading?
    ensures (exists id :: CanStick(After(s, Hear(key, reply)), id, reply)) <==>
              key in s.pending && s.pending[key] in s.slots && s.slots[s.pending[key]].Some?
  {
    InvHasTable(s);
    hide Inv, Render, InTable, CanStick, TableInv;
    var h := After(s, Hear(key, reply));
    if id :| CanStick(h, id, reply) {
      StickingStarts(h, id, reply);
    }
    if key in s.pending {
      EntryIsOpen(s, key);
      if s.slots[s.pending[key]].Some? {
        FullSlotSticks(h, s.pending[key], reply);
      }
    }
  }

  lemma InvHasTable(s: Rpc)
    requires Inv(s)
    ensures TableInv(s)
  {
  }

  lemma Extend(states: seq<Rpc>, steps: seq<Step>, step: Step) returns (longer: seq<Rpc>, more: seq<Step>)
    requires |states| == |steps| + 1 && Run(states, steps) && Enabled(states[|steps|], step)
    ensures |longer| == |more| + 1 && Run(longer, more) && |more| == |steps| + 1
            && longer[|more|] == After(states[|steps|], step)
  {
    hide Enabled, After;
    longer, more := states + [After(states[|steps|], step)], steps + [step];
  }

  /** One call, with the first reply in its channel. */
  function AnsweredCall(first: Reply): Rpc {
    Rpc(1, map[1 := Waiting], map[Render(1) := 1], map[1 := Some(Answer(first))], Reading, [(Render(1), first)], {})
  }

  function WaitingCall(): Rpc {
    Rpc(1, map[1 := Waiting], map[Render(1) := 1], map[1 := None], Reading, [], {})
  }

  lemma CallWaits() returns (states: seq<Rpc>, steps: seq<Step>)
    ensures |states| == |steps| + 1 && Run(states, steps) && states[|steps|] == WaitingCall()
  {
    hide Render;
    states, steps := [Rpc(0, map[], map[], map[], Reading, [], {})], [];
    states, steps := Extend(states, steps, Allocate);
    states, steps := Extend(states, steps, Register(1));
    states, steps := Extend(states, steps, Write(1, true));
  }

  lemma CallIsAnswered(first: Reply) returns (states: seq<Rpc>, steps: seq<Step>)
    ensures |states| == |steps| + 1 && Run(states, steps) && states[|steps|] == AnsweredCall(first)
  {
    hide Render, Run;
    states, steps := CallWaits();
    states, steps := Extend(states, steps, Hear(Render(1), first));
    states, steps := Extend(states, steps, Deliver);
  }

  /** A run that gets there: one call, answered twice, whose context ends in between. */
  lemma SecondReplyCanBlock(first: Reply, second: Reply) returns (states: seq<Rpc>, steps: seq<Step>)
    ensures |states| == |steps| + 1 && Run(states, steps) && Stuck(states[|steps|])
    ensures states[|steps|].heard == [(Render(1), first), (Render(1), second)]
  {
    hide Render, Run;
    states, steps := CallIsAnswered(first);
    states, steps := Extend(states, steps, Hear(Render(1), second));
    states, steps := Extend(states, steps, Cancel(1));
  }
}
