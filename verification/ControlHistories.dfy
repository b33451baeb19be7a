/** Histories in which one request is answered twice: neither hypothesis of at-most-once can be dropped. */
module ControlHistories {
  import opened Model
  import opened Decorate
  import opened MonitorState
  import opened MonitorProofs
  import opened MonitorTheorems
  import opened MonitorEffects
  import opened Control

  /** A request both an approval and a rejection can answer. */
  predicate Answerable(r: PendingRequest) {
    r.kind.Approval? && r.controllable
        && (r.availableDecisions == [] || {"accept", "decline"} <= set d | d in r.availableDecisions)
  }

  function Approval(id: string, r: PendingRequest): Action {
    Approve(id, r.threadId, r.turnId, false)
  }

  function Rejection(id: string, r: PendingRequest): Action {
    Reject(id, r.threadId, r.turnId, false)
  }

  lemma BothPass(table: RequestTable, id: string, r: PendingRequest)
    requires Answerable(r) && id in table && table[id].request == r
    ensures Check(table, Approval(id, r)).Ok? && Check(table, Rejection(id, r)).Ok?
  {
  }

  /** A new agent receives one request. */
  lemma OneRequest(cfg: Config, r: PendingRequest, from: ClientId, appServerId: string, now: int)
    returns (s0: AgentState, e: Event, s: AgentState, id: string)
    requires Answerable(r) && appServerId != ""
    ensures Begin(s0) && Move(s0, e, s) && e.Section? && s.calls == map[] && s.sent == []
    ensures Check(s.monitor.pendingRequests, Approval(id, r)).Ok?
            && Check(s.monitor.pendingRequests, Rejection(id, r)).Ok?
  {
    hide Inv, Initial, Next, Check, NewState, NextRequestId, Answerable;
    NewStateInitial(cfg, now);
    var m0 := NewState(cfg, now);
    var step := ServerRequest(r, from, appServerId);
    assert Enabled(m0, step);
    var m := EverySectionIsPossible(m0, step, now);
    SectionTable(m0, step, now, m);
    s0 := AgentState(m0, map[], map[], []);
    e := Section(step, now);
    s := AgentState(m, WithIssued(s0, step, now), map[], []);
    id := NewEntry(m0, step, now).request.id;
    var entry := m.pendingRequests[id].request;
    assert Answerable(entry) by { StillAnswerable(r, id, now); }
    BothPass(m.pendingRequests, id, entry);
  }

  lemma StillAnswerable(r: PendingRequest, id: string, now: int)
    requires Answerable(r)
    ensures Answerable(r.(id := id, createdAt := now))
  {
  }

  lemma Prepend(s0: AgentState, e: Event, states: seq<AgentState>, events: seq<Event>)
    requires Begin(s0) && |states| == |events| + 1 && Move(s0, e, states[0])
    requires forall i {:trigger events[i]} :: 0 <= i < |events| ==> Move(states[i], events[i], states[i + 1])
    ensures History([s0] + states, [e] + events)
  {
    hide Begin, Move;
    var longer, more := [s0] + states, [e] + events;
    forall i {:trigger more[i]} | 0 <= i < |more| ensures Move(longer[i], more[i], longer[i + 1]) {
      if i > 0 {
        assert more[i] == events[i - 1] && longer[i] == states[i - 1] && longer[i + 1] == states[i];
      }
    }
  }

  /** With overlapping actions and honest errors: any answerable request of a new agent can be approved and rejected. */
  lemma OverlapHappens(cfg: Config, r: PendingRequest, from: ClientId, appServerId: string, now: int)
    returns (states: seq<AgentState>, events: seq<Event>)
    requires Answerable(r) && appServerId != ""
    ensures History(states, events) && !OnceEach(states[|events|].sent)
    ensures forall k :: 0 <= k < |events| ==> HonestErrors(events[k])
  {
    hide Begin, Move, Answerable, Check, OnceEach;
    var s0, e, s, id := OneRequest(cfg, r, from, appServerId, now);
    states, events := OverlapAnswersTwice(s, Approval(id, r), Rejection(id, r), 0, 1);
    Prepend(s0, e, states, events);
    states, events := [s0] + states, [e] + events;
  }

  /** Only this call can be open. */
  predicate OnlyOpen(s: AgentState, call: nat) {
    forall c :: c in s.calls && c != call ==> !Open(s.calls[c])
  }

  lemma OnlyOpenIsSerialised(s: AgentState, call: nat)
    requires OnlyOpen(s, call)
    ensures Serialised(s)
  {
  }

  /** One action whose Respond fails after its response left. */
  lemma FailsDishonestly(s: AgentState, call: nat, a: Action) returns (s1: AgentState, s2: AgentState)
    requires call !in s.calls && Check(s.monitor.pendingRequests, a).Ok? && OnlyOpen(s, call)
    ensures Move(s, LookUp(call, a), s1) && Move(s1, Respond(call, false, true), s2)
    ensures Serialised(s) && Serialised(s1) && Serialised(s2)
    ensures s2.monitor == s.monitor && |s2.sent| == |s.sent| + 1 && s2.sent[..|s.sent|] == s.sent
            && s2.sent[|s.sent|].action == a
    ensures s2.calls.Keys == s.calls.Keys + {call} && forall c :: OnlyOpen(s2, c)
  {
    hide Move, Check, AfterLookUp, AfterRespond, Open, Serialised;
    s1 := AfterLookUp(s, call, a);
    Passed(s, call, a);
    s2 := AfterRespond(s1, call, false, true);
    Sends(s1, call, false);
    OnlyOpenIsSerialised(s, call);
    OnlyOpenIsSerialised(s1, call);
    OnlyOpenIsSerialised(s2, call);
  }

  /** With serialised actions, when a Respond reports an error after its response has left: the next action answers
      again. */
  lemma DishonestErrorHappens(cfg: Config, r: PendingRequest, from: ClientId, appServerId: string, now: int)
    returns (states: seq<AgentState>, events: seq<Event>)
    requires Answerable(r) && appServerId != ""
    ensures History(states, events) && !OnceEach(states[|events|].sent)
    ensures forall k :: 0 <= k < |states| ==> Serialised(states[k])
  {
    hide Move, Answerable, Check, Serialised, NewState;
    var s0, e, s, id := OneRequest(cfg, r, from, appServerId, now);
    OnlyOpenIsSerialised(s0, 0);
    hide Begin;
    var s1, s2 := FailsDishonestly(s, 0, Approval(id, r));
    var s3, s4 := FailsDishonestly(s2, 1, Rejection(id, r));
    states := [s, s1, s2, s3, s4];
    events := [LookUp(0, Approval(id, r)), Respond(0, false, true), LookUp(1, Rejection(id, r)),
               Respond(1, false, true)];
    assert s4.sent[..1][0] == s2.sent[0];
    assert s4.sent[0].action.requestId == s4.sent[1].action.requestId;
    Prepend(s0, e, states, events);
    states, events := [s0] + states, [e] + events;
  }

  // ---- Lost connections ----

  predicate HoldsNoneOf(table: RequestTable, client: ClientId) {
    forall key :: key in table ==> table[key].client != client
  }

  predicate RecordsFrom(step: Step, client: ClientId) {
    step.ServerRequest? && step.from == client
  }

  /** A section puts a request of the connection in the table exactly when it records one from it, if there was none. */
  lemma SectionHoldsNone(s: MonitorState, step: Step, now: int, s': MonitorState, client: ClientId)
    requires Next(s, step, now, s') && HoldsNoneOf(s.pendingRequests, client)
    ensures HoldsNoneOf(s'.pendingRequests, client) <==> !RecordsFrom(step, client)
  {
    hide Next, NextRequestId;
    SectionTable(s, step, now, s');
    if step.ServerRequest? {
      assert NewEntry(s, step, now).request.id in s'.pendingRequests;
    }
  }

  /** After clearClient nothing clears that connection again, and its reader may still have lines to hand on: the
      table stays free of its requests exactly as long as none is recorded from it. */
  lemma {:induction false} LostClientStaysGoneExactly(states: seq<MonitorState>, steps: seq<Step>, times: seq<int>,
                                                      i: nat, j: nat)
    requires Run(states, steps, times) && i < j < |states| && steps[i].ClearClient?
    ensures (forall k :: i < k <= j ==> HoldsNoneOf(states[k].pendingRequests, steps[i].lost)) <==>
            (forall k :: i < k < j ==> !RecordsFrom(steps[k], steps[i].lost))
    decreases j
  {
    hide Inv, Next, HoldsNoneOf, RecordsFrom;
    if j == i + 1 {
      InvAlways(states, steps, times, i);
      LossIsShown(states[i], steps[i].lost, times[i], states[i + 1]);
      SectionTable(states[i], steps[i], times[i], states[i + 1]);
      LostAtOnce(states[i].pendingRequests, states[i + 1].pendingRequests, steps[i].lost);
    } else {
      LostClientStaysGoneExactly(states, steps, times, i, j - 1);
      if HoldsNoneOf(states[j - 1].pendingRequests, steps[i].lost) {
        SectionHoldsNone(states[j - 1], steps[j - 1], times[j - 1], states[j], steps[i].lost);
      }
    }
  }

  lemma LostAtOnce(table: RequestTable, after: RequestTable, lost: ClientId)
    requires forall key :: key in after <==> key in table && table[key].client != lost
    requires PartOf(after, table)
    ensures HoldsNoneOf(after, lost)
  {
  }
}
