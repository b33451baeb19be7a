/** Exact-request control: an action names one pending request, is checked against it,
    answers it on its own connection, and takes it off the table. The three parts do not
    share a lock (agent/internal/monitor/control.go). */
module Control {
  import opened Wrappers
  import opened Model
  import opened Decorate
  import opened MonitorState
  import opened MonitorProofs

  datatype ControlError = RequestNotFound | RequestConflict | NotControllable | NoAppServer | AppServerFailed

  datatype Reply = Decision(text: string) | Answers(answers: map<string, seq<string>>)

  datatype Action =
    | Approve(requestId: string, threadId: string, turnId: string, forSession: bool)
    | Reject(requestId: string, threadId: string, turnId: string, cancelTurn: bool)
    | SubmitInput(requestId: string, threadId: string, turnId: string, answers: map<string, seq<string>>)

  /** One response written to an app-server connection, and the action it was written for. */
  datatype Response = Response(client: ClientId, appServerId: string, reply: Reply, action: Action)

  function RequestType(a: Action): RequestKind {
    if a.SubmitInput? then Input else Approval
  }

  predicate Matches(r: PendingRequest, threadId: string, turnId: string, kind: RequestKind) {
    r.threadId == threadId && r.turnId == turnId && r.kind == kind
  }

  function Lookup(table: RequestTable, requestId: string, threadId: string, turnId: string,
                  kind: RequestKind): Result<PendingControl, ControlError> {
    if requestId !in table then Err(RequestNotFound)
    else if !Matches(table[requestId].request, threadId, turnId, kind) then Err(RequestConflict)
    else if !table[requestId].request.controllable then Err(NotControllable)
    else Ok(table[requestId])
  }

  function Decide(control: PendingControl, decision: string): Result<Reply, ControlError> {
    if control.request.availableDecisions != [] && decision !in control.request.availableDecisions
        then Err(RequestConflict)
    else Ok(Decision(decision))
  }

  /** Every question has a name and at least one answer. */
  predicate AllAnswered(answers: map<string, seq<string>>) {
    forall key :: key in answers ==> key != "" && answers[key] != []
  }

  function Answer(answers: map<string, seq<string>>): Result<Reply, ControlError> {
    if answers == map[] || !AllAnswered(answers) then Err(RequestConflict) else Ok(Answers(answers))
  }

  /** The decision an approval action stands for. */
  function Verdict(a: Action): string
    requires !a.SubmitInput?
  {
    match a
    case Approve(_, _, _, forSession) => if forSession then "acceptForSession" else "accept"
    case Reject(_, _, _, cancelTurn) => if cancelTurn then "cancel" else "decline"
  }

  function ReplyTo(control: PendingControl, a: Action): Result<Reply, ControlError> {
    match a
    case Approve(_, _, _, _) => Decide(control, Verdict(a))
    case Reject(_, _, _, _) => Decide(control, Verdict(a))
    case SubmitInput(_, _, _, answers) => Answer(answers)
  }

  /** All that happens before Respond. */
  function Check(table: RequestTable, a: Action): Result<(PendingControl, Reply), ControlError> {
    match Lookup(table, a.requestId, a.threadId, a.turnId, RequestType(a))
    case Err(e) => Err(e)
    case Ok(control) =>
      match ReplyTo(control, a)
      case Err(e) => Err(e)
      case Ok(reply) => Ok((control, reply))
  }

  /** The words of the protocol: an approval accepts, for the session if so asked; a rejection declines, or cancels
      the turn if so asked. */
  predicate Says(text: string, a: Action) {
    && (text in {"accept", "acceptForSession"} <==> a.Approve?)
    && (text in {"decline", "cancel"} <==> a.Reject?)
    && (text == "acceptForSession" <==> a.Approve? && a.forSession)
    && (text == "cancel" <==> a.Reject? && a.cancelTurn)
  }

  /** What the reply to a request must be: the decision the action stands for, among those offered if any were,
      or named answers to the questions of an input request. */
  predicate Fits(r: PendingRequest, a: Action, reply: Reply) {
    match reply
    case Decision(text) =>
      && r.kind == Approval && !a.SubmitInput? && Says(text, a)
      && (r.availableDecisions == [] || text in r.availableDecisions)
    case Answers(answers) =>
      && r.kind == Input && a.SubmitInput? && answers == a.answers != map[]
      && (forall key :: key in answers ==> key != "" && answers[key] != [])
  }

  /** An action says one thing. */
  lemma VerdictSays(a: Action, text: string)
    requires !a.SubmitInput?
    ensures Says(text, a) <==> text == Verdict(a)
  {
  }

  /** The response goes where the request came from, under its own id, and answers exactly what the action named. */
  predicate ExactResponse(response: Response, control: PendingControl) {
    var a, r := response.action, control.request;
    && response.client == control.client && response.appServerId == control.appServerId
    && a.requestId == r.id && a.threadId == r.threadId && a.turnId == r.turnId
    && r.controllable && Fits(r, a, response.reply)
  }

  lemma CheckedIsExact(table: RequestTable, a: Action)
    requires a.requestId in table ==> table[a.requestId].request.id == a.requestId
    ensures Check(table, a).Ok? ==>
              && a.requestId in table && Check(table, a).value.0 == table[a.requestId]
              && ExactResponse(ResponseOf(a, Check(table, a).value.0, Check(table, a).value.1), table[a.requestId])
  {
    hide Says, Verdict;
    if !a.SubmitInput? {
      VerdictSays(a, Verdict(a));
    }
  }

  /** An action passes the checks exactly when some reply to it would be an exact response. */
  lemma CheckExactly(table: RequestTable, a: Action)
    requires a.requestId in table ==> table[a.requestId].request.id == a.requestId
    ensures Check(table, a).Ok? <==>
              a.requestId in table && exists reply ::
                  ExactResponse(ResponseOf(a, table[a.requestId], reply), table[a.requestId])
  {
    hide Says, Verdict;
    if !a.SubmitInput? {
      forall text: string ensures Says(text, a) <==> text == Verdict(a) {
        VerdictSays(a, text);
      }
    }
    if Check(table, a).Ok? {
      assert ExactResponse(ResponseOf(a, table[a.requestId], Check(table, a).value.1), table[a.requestId]);
    }
  }

  /** Which of the three errors a refused action gets: first that there is no such request, then that it is another one
      than the action means, then that it cannot be answered from here, and last that this is no answer to it. */
  lemma RefusalInWords(table: RequestTable, a: Action)
    ensures Check(table, a) == Err(RequestNotFound) <==> a.requestId !in table
    ensures a.requestId in table ==>
              var r := table[a.requestId].request;
              var meant := r.threadId == a.threadId && r.turnId == a.turnId && (r.kind == Input <==> a.SubmitInput?);
              && (Check(table, a) == Err(NotControllable) <==> meant && !r.controllable)
              && (!meant ==> Check(table, a) == Err(RequestConflict))
              && (Check(table, a).Err? && meant && r.controllable ==> Check(table, a) == Err(RequestConflict))
  {
    hide AllAnswered, Verdict;
  }

  function ResponseOf(a: Action, control: PendingControl, reply: Reply): Response {
    Response(control.client, control.appServerId, reply, a)
  }

  // ---- Actions in flight ----

  datatype Stage =
    | Found(control: PendingControl, reply: Reply)
    | Answered(control: PendingControl)
    | Returned(succeeded: bool)

  datatype Call = Call(action: Action, stage: Stage)

  /** `issued` is every table entry ever made, `sent` every response written to an app-server. */
  datatype AgentState = AgentState(monitor: MonitorState, issued: RequestTable, calls: map<nat, Call>,
                                   sent: seq<Response>)

  /** `written` tells whether the message left, `accepted` whether Respond returned without error. */
  datatype Event =
    | Section(step: Step, now: int)
    | LookUp(call: nat, action: Action)
    | Respond(call: nat, accepted: bool, written: bool)
    | FinishCall(call: nat, now: int)

  function AfterLookUp(s: AgentState, call: nat, a: Action): AgentState {
    s.(calls := s.calls[call :=
         match Check(s.monitor.pendingRequests, a)
         case Ok((control, reply)) => Call(a, Found(control, reply))
         case Err(_) => Call(a, Returned(false))])
  }

  function AfterRespond(s: AgentState, call: nat, accepted: bool, written: bool): AgentState
    requires call in s.calls && s.calls[call].stage.Found?
  {
    var Call(a, Found(control, reply)) := s.calls[call];
    s.(calls := s.calls[call := Call(a, if accepted then Answered(control) else Returned(false))],
       sent := if written then s.sent + [ResponseOf(a, control, reply)] else s.sent)
  }

  /** Anything the agent or one of the actions in flight does next. */
  ghost predicate Move(s: AgentState, e: Event, s': AgentState) {
    match e
    case Section(step, now) =>
      && !step.Finish? && (step.ServerRequest? ==> step.appServerId != "")
      && Next(s.monitor, step, now, s'.monitor)
      && s' == s.(monitor := s'.monitor, issued := if step.ServerRequest? then WithIssued(s, step, now) else s.issued)
    case LookUp(call, a) => call !in s.calls && s' == AfterLookUp(s, call, a)
    case Respond(call, accepted, written) =>
      && call in s.calls && s.calls[call].stage.Found?
      && (accepted ==> written)
      && s' == AfterRespond(s, call, accepted, written)
    case FinishCall(call, now) =>
      && call in s.calls && s.calls[call].stage.Answered?
      && Next(s.monitor, Finish(s.calls[call].action.requestId, s.calls[call].stage.control), now, s'.monitor)
      && s' == s.(monitor := s'.monitor, calls := s.calls[call := s.calls[call].(stage := Returned(true))])
  }

  function NewEntry(s: MonitorState, step: Step, now: int): PendingControl
    requires step.ServerRequest?
  {
    PendingControl(step.request.(id := NextRequestId(s.requestSequence + 1, now), createdAt := now), step.from,
                   step.appServerId)
  }

  function WithIssued(s: AgentState, step: Step, now: int): RequestTable
    requires step.ServerRequest?
  {
    var entry := NewEntry(s.monitor, step, now);
    s.issued[entry.request.id := entry]
  }

  ghost predicate Begin(s: AgentState) {
    Initial(s.monitor) && s.issued == map[] && s.calls == map[] && s.sent == []
  }

  ghost predicate History(states: seq<AgentState>, events: seq<Event>) {
    && |states| == |events| + 1
    && Begin(states[0])
    && (forall i {:trigger events[i]} :: 0 <= i < |events| ==> Move(states[i], events[i], states[i + 1]))
  }

  // ---- The table across sections ----

  /** A rebuild leaves the table alone. */
  lemma RebuiltKeepsTable(s: MonitorState, s': MonitorState, now: int)
    requires Rebuilt(s, s', now)
    ensures s'.pendingRequests == s.pendingRequests && s'.requestSequence == s.requestSequence
  {
    hide RebuiltWith;
    var uptime, choice, threads, requests :| RebuiltWith(s, s', now, uptime, choice, threads, requests);
    RebuiltFields(s, s', now, uptime, choice, threads, requests);
  }

  predicate PartOf(smaller: RequestTable, table: RequestTable) {
    forall key :: key in smaller ==> key in table && smaller[key] == table[key]
  }

  predicate AddsEntry(s: MonitorState, step: Step, now: int, s': MonitorState)
    requires step.ServerRequest?
  {
    && s'.requestSequence == s.requestSequence + 1
    && s'.pendingRequests == s.pendingRequests[NewEntry(s, step, now).request.id := NewEntry(s, step, now)]
  }

  predicate OnlyRemoves(s: MonitorState, s': MonitorState) {
    s'.requestSequence == s.requestSequence && PartOf(s'.pendingRequests, s.pendingRequests)
  }

  lemma RecordingTable(s: MonitorState, step: Step, now: int)
    requires step.ServerRequest?
    ensures AddsEntry(s, step, now, Updated(s, step, now))
  {
    hide NextRequestId;
  }

  lemma PrepareKeepsTable(s: MonitorState)
    ensures OnlyRemoves(s, PrepareLive(s))
  {
  }

  lemma LoopTable(s: MonitorState, step: Step, now: int)
    requires step.CollectFilesystem? || step.Dial? || step.DialFailed? || step.Connect? || step.AccountResult?
          || step.Refresh? || step.Disconnect?
    ensures OnlyRemoves(s, Updated(s, step, now))
  {
  }

  lemma OtherTable(s: MonitorState, step: Step, now: int)
    requires step.ClearClient? || step.Resolved? || step.Finish? || step.Interrupt?
    ensures OnlyRemoves(s, Updated(s, step, now))
  {
    hide InterruptThread;
    RemovalUpdates(s, now);
    hide Updated;
  }

  lemma MessageTable(s: MonitorState, step: Step, now: int)
    requires step.StatusChanged? || step.TurnChanged? || step.Hook?
    ensures OnlyRemoves(s, Updated(s, step, now))
  {
    PrepareKeepsTable(s);
    MessageUpdates(s, now);
    hide Updated, PrepareLive, ReplaceState, IndexOf, TakeTurn;
  }

  /** Only a server request adds to the table; every other section can only take away. */
  lemma UpdatedTable(s: MonitorState, step: Step, now: int)
    ensures if step.ServerRequest? then AddsEntry(s, step, now, Updated(s, step, now))
            else OnlyRemoves(s, Updated(s, step, now))
    ensures step.Finish? ==> Updated(s, step, now) == WithoutRequest(s, step.requestId, step.expected)
  {
    RemovalUpdates(s, now);
    hide Updated, AddsEntry, OnlyRemoves, WithoutRequest;
    if step.ServerRequest? {
      RecordingTable(s, step, now);
    } else if step.StatusChanged? || step.TurnChanged? || step.Hook? {
      MessageTable(s, step, now);
    } else if step.ClearClient? || step.Resolved? || step.Finish? || step.Interrupt? {
      OtherTable(s, step, now);
    } else {
      LoopTable(s, step, now);
    }
  }

  lemma SectionTable(s: MonitorState, step: Step, now: int, s': MonitorState)
    requires Next(s, step, now, s')
    ensures if step.ServerRequest? then
              && s'.requestSequence == s.requestSequence + 1
              && s'.pendingRequests == s.pendingRequests[NewEntry(s, step, now).request.id := NewEntry(s, step, now)]
            else s'.requestSequence == s.requestSequence && PartOf(s'.pendingRequests, s.pendingRequests)
    ensures step.Finish? ==> s'.pendingRequests == WithoutRequest(s, step.requestId, step.expected).pendingRequests
  {
    hide Updated, Rebuilt, Enabled, NewEntry, WithoutRequest;
    UpdatedTable(s, step, now);
    if !step.AccountResult? {
      RebuiltKeepsTable(Updated(s, step, now), s', now);
    }
  }

  // ---- What every history keeps ----

  ghost predicate IssuedInv(issued: RequestTable, table: RequestTable, sequence: nat) {
    && TableInv(issued, sequence) && PartOf(table, issued)
  }

  predicate CallInv(call: Call, issued: RequestTable) {
    match call.stage
    case Found(control, reply) => call.action.requestId in issued && issued[call.action.requestId] == control
                                  && ExactResponse(ResponseOf(call.action, control, reply), control)
    case Answered(control) => call.action.requestId in issued && issued[call.action.requestId] == control
    case Returned(_) => true
  }

  predicate SentInv(response: Response, issued: RequestTable) {
    response.action.requestId in issued && ExactResponse(response, issued[response.action.requestId])
  }

  ghost predicate ControlInv(s: AgentState) {
    && Inv(s.monitor)
    && IssuedInv(s.issued, s.monitor.pendingRequests, s.monitor.requestSequence)
    && (forall c :: c in s.calls ==> CallInv(s.calls[c], s.issued))
    && (forall i :: 0 <= i < |s.sent| ==> SentInv(s.sent[i], s.issued))
  }

  /** A new request's id was never given out before. */
  lemma FreshId(issued: RequestTable, sequence: nat, now: int)
    requires TableInv(issued, sequence)
    ensures NextRequestId(sequence + 1, now) !in issued
  {
    var id := NextRequestId(sequence + 1, now);
    if id in issued {
      assert Issued(id, sequence);
      var k: nat, t :| k <= sequence && id == NextRequestId(k, t);
      RequestIdsAreUnique(sequence + 1, now, k, t);
    }
  }

  lemma IssuedGrows(s: AgentState, step: Step, now: int, s': AgentState)
    requires IssuedInv(s.issued, s.monitor.pendingRequests, s.monitor.requestSequence)
    requires Move(s, Section(step, now), s')
    ensures IssuedInv(s'.issued, s'.monitor.pendingRequests, s'.monitor.requestSequence)
    ensures PartOf(s.issued, s'.issued)
    ensures step.ServerRequest? ==> NewEntry(s.monitor, step, now).request.id !in s.issued
  {
    hide Next, ExactResponse, NextRequestId;
    SectionTable(s.monitor, step, now, s'.monitor);
    if step.ServerRequest? {
      FreshId(s.issued, s.monitor.requestSequence, now);
      RequestKeepsTable(s.issued, s.monitor.requestSequence, NextRequestId(s.monitor.requestSequence + 1, now),
                        NewEntry(s.monitor, step, now), now);
    }
  }

  lemma CallKept(call: Call, issued: RequestTable, more: RequestTable)
    requires CallInv(call, issued) && PartOf(issued, more)
    ensures CallInv(call, more)
  {
  }

  lemma SentKept(response: Response, issued: RequestTable, more: RequestTable)
    requires SentInv(response, issued) && PartOf(issued, more)
    ensures SentInv(response, more)
  {
  }

  lemma SectionKeepsControl(s: AgentState, step: Step, now: int, s': AgentState)
    requires ControlInv(s) && Move(s, Section(step, now), s')
    ensures ControlInv(s')
  {
    IssuedGrows(s, step, now, s');
    hide Next, Inv, IssuedInv, CallInv, SentInv, WithIssued, PartOf;
    StepKeepsInv(s.monitor, step, now, s'.monitor);
    forall c | c in s'.calls ensures CallInv(s'.calls[c], s'.issued) {
      CallKept(s.calls[c], s.issued, s'.issued);
    }
    forall i | 0 <= i < |s'.sent| ensures SentInv(s'.sent[i], s'.issued) {
      SentKept(s.sent[i], s.issued, s'.issued);
    }
  }

  lemma LookedUp(s: AgentState, call: nat, a: Action)
    requires ControlInv(s)
    ensures CallInv(AfterLookUp(s, call, a).calls[call], s.issued)
  {
    hide Inv, Check, ExactResponse, SentInv;
    CheckedIsExact(s.monitor.pendingRequests, a);
  }

  lemma LookUpKeepsControl(s: AgentState, call: nat, a: Action, s': AgentState)
    requires ControlInv(s) && Move(s, LookUp(call, a), s')
    ensures ControlInv(s')
  {
    LookedUp(s, call, a);
    hide Inv, Check, IssuedInv, CallInv, SentInv;
  }

  lemma RespondKeepsControl(s: AgentState, call: nat, accepted: bool, written: bool, s': AgentState)
    requires ControlInv(s) && Move(s, Respond(call, accepted, written), s')
    ensures ControlInv(s')
  {
    hide Inv, IssuedInv, ExactResponse;
    assert CallInv(s.calls[call], s.issued);
  }

  lemma SmallerTable(s: AgentState, step: Step)
    requires step.Finish? && PartOf(s.monitor.pendingRequests, s.issued)
    ensures PartOf(WithoutRequest(s.monitor, step.requestId, step.expected).pendingRequests, s.issued)
  {
  }

  lemma ReturnedInv(call: Call, issued: RequestTable)
    ensures CallInv(call.(stage := Returned(true)), issued)
  {
  }

  lemma FinishKeepsControl(s: AgentState, call: nat, now: int, s': AgentState)
    requires ControlInv(s) && Move(s, FinishCall(call, now), s')
    ensures ControlInv(s')
  {
    hide Next, Inv, ExactResponse, TableInv, SentInv, CallInv, WithoutRequest;
    var step := Finish(s.calls[call].action.requestId, s.calls[call].stage.control);
    SectionTable(s.monitor, step, now, s'.monitor);
    StepKeepsInv(s.monitor, step, now, s'.monitor);
    SmallerTable(s, step);
    ReturnedInv(s.calls[call], s.issued);
  }

  lemma MoveKeepsControl(s: AgentState, e: Event, s': AgentState)
    requires ControlInv(s) && Move(s, e, s')
    ensures ControlInv(s')
  {
    hide ControlInv, Move;
    match e
    case Section(step, now) => SectionKeepsControl(s, step, now, s');
    case LookUp(call, a) => LookUpKeepsControl(s, call, a, s');
    case Respond(call, accepted, written) => RespondKeepsControl(s, call, accepted, written, s');
    case FinishCall(call, now) => FinishKeepsControl(s, call, now, s');
  }

  lemma BeginControl(s: AgentState)
    requires Begin(s)
    ensures ControlInv(s)
  {
    hide Inv;
    InitialInv(s.monitor);
  }

  lemma {:induction false} ControlAlways(states: seq<AgentState>, events: seq<Event>, i: nat)
    requires History(states, events) && i < |states|
    ensures ControlInv(states[i])
  {
    hide ControlInv, Move;
    if i == 0 {
      BeginControl(states[0]);
    } else {
      ControlAlways(states, events, i - 1);
      MoveKeepsControl(states[i - 1], events[i - 1], states[i]);
    }
  }

  // ---- Theorems ----

  /** In every interleaving of sections and actions: each response went to the connection that issued the request,
      under that request's own id, for the thread, turn and kind the action named, with a decision that was offered. */
  lemma ResponsesAreExact(states: seq<AgentState>, events: seq<Event>, i: nat, r: Response)
    requires History(states, events) && i < |states| && r in states[i].sent
    ensures r.action.requestId in states[i].issued
    ensures ExactResponse(r, states[i].issued[r.action.requestId])
  {
    hide Move, Inv, ExactResponse;
    ControlAlways(states, events, i);
    var k :| 0 <= k < |states[i].sent| && states[i].sent[k] == r;
    assert SentInv(states[i].sent[k], states[i].issued);
  }

  /** Request ids are never given out twice: what was issued under an id stays what was issued under it. */
  lemma {:induction false} IdsAreNeverReused(states: seq<AgentState>, events: seq<Event>, i: nat, j: nat)
    requires History(states, events) && i <= j < |states|
    ensures PartOf(states[i].issued, states[j].issued)
    ensures PartOf(states[j].monitor.pendingRequests, states[j].issued)
    ensures j < |events| && events[j].Section? && events[j].step.ServerRequest? ==>
              NewEntry(states[j].monitor, events[j].step, events[j].now).request.id !in states[j].issued
  {
    hide Inv, CallInv, SentInv, NewEntry, Next;
    ControlAlways(states, events, j);
    if i < j {
      IdsAreNeverReused(states, events, i, j - 1);
      ControlAlways(states, events, j - 1);
      IssuedOnlyGrows(states[j - 1], events[j - 1], states[j]);
    }
    if j < |events| && events[j].Section? {
      IssuedGrows(states[j], events[j].step, events[j].now, states[j + 1]);
    }
  }

  lemma IssuedOnlyGrows(s: AgentState, e: Event, s': AgentState)
    requires ControlInv(s) && Move(s, e, s')
    ensures PartOf(s.issued, s'.issued)
  {
    hide Inv, CallInv, SentInv, Next, NewEntry;
    if e.Section? {
      IssuedGrows(s, e.step, e.now, s');
    }
  }

  /** Finishing takes off exactly the request answered, whatever happened to the table meanwhile:
      the entry compared against can be gone, but never be another one. */
  lemma FinishRemovesItsOwn(s: AgentState, call: nat, now: int, s': AgentState)
    requires ControlInv(s) && Move(s, FinishCall(call, now), s')
    ensures s'.monitor.pendingRequests == s.monitor.pendingRequests - {s.calls[call].action.requestId}
    ensures s'.calls[call].stage == Returned(true)
  {
    hide Next, Inv, ExactResponse;
    assert CallInv(s.calls[call], s.issued);
    SectionTable(s.monitor, Finish(s.calls[call].action.requestId, s.calls[call].stage.control), now, s'.monitor);
  }

  // ---- At most once ----

  predicate Open(call: Call) {
    !call.stage.Returned?
  }

  /** No two actions on one request are between their lookup and their finish. */
  predicate Serialised(s: AgentState) {
    forall c, d :: c in s.calls && d in s.calls && c != d && Open(s.calls[c]) && Open(s.calls[d]) ==>
                     s.calls[c].action.requestId != s.calls[d].action.requestId
  }

  predicate OnceEach(sent: seq<Response>) {
    forall j, k :: 0 <= j < k < |sent| ==> sent[j].action.requestId != sent[k].action.requestId
  }

  predicate WasSent(sent: seq<Response>, requestId: string) {
    exists k :: 0 <= k < |sent| && sent[k].action.requestId == requestId
  }

  predicate Finishing(call: Call, requestId: string) {
    call.stage.Answered? && call.action.requestId == requestId
  }

  /** A request that was answered is off the table or about to be taken off it, and nobody else is about to answer
      it. */
  ghost predicate OnceInv(s: AgentState) {
    && OnceEach(s.sent)
    && (forall key :: key in s.monitor.pendingRequests && WasSent(s.sent, key) ==>
          exists c :: c in s.calls && Finishing(s.calls[c], key))
    && (forall c :: c in s.calls && s.calls[c].stage.Found? ==> !WasSent(s.sent, s.calls[c].action.requestId))
  }

  lemma SectionKeepsOnce(s: AgentState, step: Step, now: int, s': AgentState)
    requires ControlInv(s) && OnceInv(s) && Move(s, Section(step, now), s')
    ensures OnceInv(s')
  {
    hide Next, Inv, CallInv, ExactResponse, OnceEach, NewEntry;
    SectionTable(s.monitor, step, now, s'.monitor);
    IssuedGrows(s, step, now, s');
  }

  lemma OneAtATime(s: AgentState, c: nat, d: nat)
    requires Serialised(s) && c in s.calls && d in s.calls && Open(s.calls[c]) && Open(s.calls[d])
    requires s.calls[c].action.requestId == s.calls[d].action.requestId
    ensures c == d
  {
  }

  lemma LookUpKeepsOnce(s: AgentState, call: nat, a: Action, s': AgentState)
    requires OnceInv(s) && Move(s, LookUp(call, a), s') && Serialised(s')
    ensures OnceInv(s')
  {
    hide OnceEach, WasSent, Serialised;
    forall c | c in s'.calls && s'.calls[c].stage.Found? ensures !WasSent(s'.sent, s'.calls[c].action.requestId) {
      if c == call && WasSent(s.sent, a.requestId) {
        var d :| d in s.calls && Finishing(s.calls[d], a.requestId);
        OneAtATime(s', d, c);
      }
    }
    forall key | key in s'.monitor.pendingRequests && WasSent(s'.sent, key)
      ensures exists c :: c in s'.calls && Finishing(s'.calls[c], key)
    {
      var c :| c in s.calls && Finishing(s.calls[c], key);
      assert c in s'.calls && Finishing(s'.calls[c], key);
    }
  }

  lemma SentOneMore(sent: seq<Response>, r: Response)
    ensures forall key :: WasSent(sent + [r], key) <==> WasSent(sent, key) || r.action.requestId == key
    ensures OnceEach(sent) && !WasSent(sent, r.action.requestId) ==> OnceEach(sent + [r])
  {
    forall key ensures WasSent(sent + [r], key) <==> WasSent(sent, key) || r.action.requestId == key {
      assert (sent + [r])[|sent|] == r;
      if WasSent(sent, key) {
        var k :| 0 <= k < |sent| && sent[k].action.requestId == key;
        assert (sent + [r])[k] == sent[k];
      }
    }
  }

  lemma RespondKeepsOnce(s: AgentState, call: nat, accepted: bool, written: bool, s': AgentState)
    requires OnceInv(s) && Move(s, Respond(call, accepted, written), s') && Serialised(s)
    requires written ==> accepted
    ensures OnceInv(s')
  {
    var Call(a, Found(control, reply)) := s.calls[call];
    SentOneMore(s.sent, ResponseOf(a, control, reply));
    hide OnceEach, WasSent;
    forall key | key in s'.monitor.pendingRequests && WasSent(s'.sent, key)
      ensures exists c :: c in s'.calls && Finishing(s'.calls[c], key)
    {
      if WasSent(s.sent, key) {
        var c :| c in s.calls && Finishing(s.calls[c], key);
        assert c in s'.calls && Finishing(s'.calls[c], key);
      } else {
        assert Finishing(s'.calls[call], key);
      }
    }
  }

  lemma FinishKeepsOnce(s: AgentState, call: nat, now: int, s': AgentState)
    requires ControlInv(s) && OnceInv(s) && Move(s, FinishCall(call, now), s')
    ensures OnceInv(s')
  {
    hide Next, ControlInv, OnceEach, WasSent;
    FinishRemovesItsOwn(s, call, now, s');
    forall key | key in s'.monitor.pendingRequests && WasSent(s'.sent, key)
      ensures exists c :: c in s'.calls && Finishing(s'.calls[c], key)
    {
      var c :| c in s.calls && Finishing(s.calls[c], key);
      assert c in s'.calls && Finishing(s'.calls[c], key);
    }
  }

  /** An error from Respond means nothing was sent. */
  predicate HonestErrors(e: Event) {
    e.Respond? && e.written ==> e.accepted
  }

  lemma MoveKeepsOnce(s: AgentState, e: Event, s': AgentState)
    requires ControlInv(s) && OnceInv(s) && Move(s, e, s') && Serialised(s) && Serialised(s') && HonestErrors(e)
    ensures OnceInv(s')
  {
    hide ControlInv, Move, OnceInv, Serialised;
    match e
    case Section(step, now) => SectionKeepsOnce(s, step, now, s');
    case LookUp(call, a) => LookUpKeepsOnce(s, call, a, s');
    case Respond(call, accepted, written) => RespondKeepsOnce(s, call, accepted, written, s');
    case FinishCall(call, now) => FinishKeepsOnce(s, call, now, s');
  }

  /** Serialised actions answer each request at most once. */
  lemma {:induction false} AtMostOneResponse(states: seq<AgentState>, events: seq<Event>, i: nat)
    requires History(states, events) && i < |states|
    requires forall k :: 0 <= k < |events| ==> HonestErrors(events[k])
    requires forall k :: 0 <= k < |states| ==> Serialised(states[k])
    ensures OnceInv(states[i]) && OnceEach(states[i].sent)
  {
    hide Move, Serialised, ControlInv;
    if i > 0 {
      AtMostOneResponse(states, events, i - 1);
      ControlAlways(states, events, i - 1);
      hide OnceInv;
      MoveKeepsOnce(states[i - 1], events[i - 1], states[i]);
    }
    assert OnceInv(states[i]);
  }

  lemma Passed(s: AgentState, call: nat, a: Action)
    requires call !in s.calls && Check(s.monitor.pendingRequests, a).Ok?
    ensures var s' := AfterLookUp(s, call, a);
            && Move(s, LookUp(call, a), s') && call in s'.calls && s'.calls[call].stage.Found?
                && s'.calls[call].action == a
            && s'.sent == s.sent && s'.monitor == s.monitor && s'.calls.Keys == s.calls.Keys + {call}
            && (forall c :: c in s.calls ==> s'.calls[c] == s.calls[c])
  {
  }

  lemma Sends(s: AgentState, call: nat, accepted: bool)
    requires call in s.calls && s.calls[call].stage.Found?
    ensures var s' := AfterRespond(s, call, accepted, true);
            && Move(s, Respond(call, accepted, true), s')
            && |s'.sent| == |s.sent| + 1 && s'.sent[..|s.sent|] == s.sent
                && s'.sent[|s.sent|].action == s.calls[call].action
            && s'.monitor == s.monitor && s'.calls.Keys == s.calls.Keys && (Open(s'.calls[call]) <==> accepted)
            && (forall c :: c in s.calls && c != call ==> s'.calls[c] == s.calls[c])
  {
  }

  /** Without serialisation it fails, from any state: two actions that both pass the check
      before either finishes are both sent. */
  lemma OverlapAnswersTwice(s: AgentState, a: Action, b: Action, c: nat, d: nat)
      returns (states: seq<AgentState>, events: seq<Event>)
    requires c !in s.calls && d !in s.calls && c != d
    requires a.requestId == b.requestId
    requires Check(s.monitor.pendingRequests, a).Ok? && Check(s.monitor.pendingRequests, b).Ok?
    ensures |states| == 5 && states[0] == s
    ensures events == [LookUp(c, a), LookUp(d, b), Respond(c, true, true), Respond(d, true, true)]
    ensures forall k {:trigger events[k]} :: 0 <= k < 4 ==> Move(states[k], events[k], states[k + 1])
    ensures !OnceEach(states[4].sent)
  {
    hide Move, Check, AfterLookUp, AfterRespond;
    Passed(s, c, a);
    var s1 := AfterLookUp(s, c, a);
    Passed(s1, d, b);
    var s2 := AfterLookUp(s1, d, b);
    Sends(s2, c, true);
    var s3 := AfterRespond(s2, c, true, true);
    Sends(s3, d, true);
    var s4 := AfterRespond(s3, d, true, true);
    states := [s, s1, s2, s3, s4];
    events := [LookUp(c, a), LookUp(d, b), Respond(c, true, true), Respond(d, true, true)];
    assert s4.sent[..|s3.sent|][|s.sent|] == s3.sent[|s.sent|];
  }
}
