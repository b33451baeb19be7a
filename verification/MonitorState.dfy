/** The agent's state between lock releases, every critical section that changes it,
    and what holds over all runs (agent/internal/monitor). */
module MonitorState {
  import opened Wrappers
  import opened Model
  import opened Merge
  import opened Hooks
  import opened Hierarchy
  import opened Decorate
  import opened Transitions
  import opened Stream

  datatype Config = Config(hooks: HookConfig, staleAfter: int, failureThreshold: int)

  /** Where the app-server loop stands; it alone connects, refreshes and disconnects. */
  datatype LoopPhase = Waiting | Dialing | Serving | Refreshing

  /** `log` is every task event ever emitted, `broadcast` every message ever offered to subscribers,
      `baseline` the thread map the first comparison was made against. */
  datatype MonitorState = MonitorState(
    cfg: Config, snapshot: Snapshot,
    appThreads: seq<Thread>, fsThreads: seq<Thread>, usage: Payload, rateLimits: Payload,
    hookSessions: map<string, HookObservation>,
    lastThreads: map<string, Thread>, eventsReady: bool,
    streamReady: bool, streamSignature: Snapshot,
    pendingRequests: RequestTable, requestSequence: nat, client: Option<ClientId>,
    phase: LoopPhase,
    log: seq<TaskEvent>, broadcast: seq<StreamMessage>, baseline: map<string, Thread>)

  // ---- Rebuild ----

  /** All five passes, thread by thread. */
  function ComposeThreads(app: seq<Thread>, fs: seq<Thread>, live: map<string, HookObservation>,
                          choice: map<string, PendingRequest>): map<string, Thread> {
    HierarchyMap(DecoratedMap(HierarchyMap(HookedMap(MergedMap(app, fs), live)), choice))
  }

  function IsStale(s: MonitorState, now: int): bool {
    if s.snapshot.codex.connection == Connected then false
    else if |s.fsThreads| > 0 && now - s.fsThreads[0].updatedAt <= s.cfg.staleAfter then false
    else true
  }

  function FallbackVisibility(s: MonitorState): Visibility {
    if s.snapshot.codex.visibility == Unavailable && |s.fsThreads| > 0 then FilesystemFallback
    else s.snapshot.codex.visibility
  }

  function RebuiltSnapshot(s: MonitorState, now: int, uptime: int, threads: seq<Thread>,
                           requests: seq<PendingRequest>): Snapshot {
    var fallback := FallbackVisibility(s);
    var shared := fallback == SharedAppServer;
    var visibility := if s.snapshot.codex.connection == Connected && |s.fsThreads| > 0 && !shared then AgentOwned
        else fallback;
    s.snapshot.(
    generatedAt := now, uptime := uptime, threads := threads, summary := SummaryOf(threads, shared),
    pendingRequests := requests, usage := s.usage, rateLimits := s.rateLimits, stale := IsStale(s, now),
    codex := s.snapshot.codex.(visibility := visibility),
    hooks := s.snapshot.hooks.(activeSessions := |LiveHooks(s.cfg.hooks, s.hookSessions, now)|))
  }

  /** The comparison with the previous list: a baseline the first time, events afterwards. */
  function WithTransitions(s: MonitorState, threads: seq<Thread>, now: int): MonitorState {
    if !s.eventsReady then
      s.(lastThreads := ById(threads), eventsReady := true, baseline := ById(threads))
    else
      var log := AppendAll(s.log, Events(s.lastThreads, threads, now));
      s.(lastThreads := ById(threads), log := log, broadcast := s.broadcast + Activities(log[|s.log|..]))
  }

  function WithBroadcast(s: MonitorState): MonitorState {
    var signature := Normalize(s.snapshot);
    if s.streamReady && signature == s.streamSignature then s
    else s.(streamReady := true, streamSignature := signature, broadcast := s.broadcast + [SnapshotMessage(s.snapshot)])
  }

  function AfterRebuild(s: MonitorState, now: int, uptime: int, threads: seq<Thread>,
                        requests: seq<PendingRequest>): MonitorState {
    var shown := s.(hookSessions := LiveHooks(s.cfg.hooks, s.hookSessions, now),
                    snapshot := RebuiltSnapshot(s, now, uptime, threads, requests));
    WithBroadcast(WithTransitions(shown, threads, now))
  }

  /** What a rebuild leaves open: the clock, which pending request prevails on a thread, and both list orders. */
  ghost predicate RebuiltWith(s: MonitorState, s': MonitorState, now: int, uptime: int,
                              choice: map<string, PendingRequest>, threads: seq<Thread>,
                                  requests: seq<PendingRequest>) {
    && IsChoice(choice, s.pendingRequests)
    && Enumerates(threads, ComposeThreads(s.appThreads, s.fsThreads, LiveHooks(s.cfg.hooks, s.hookSessions, now),
                                          choice))
    && Lists(requests, s.pendingRequests)
    && s' == AfterRebuild(s, now, uptime, threads, requests)
  }

  ghost predicate Rebuilt(s: MonitorState, s': MonitorState, now: int) {
    exists uptime, choice, threads, requests :: RebuiltWith(s, s', now, uptime, choice, threads, requests)
  }

  // ---- The critical sections, up to their rebuild ----

  /** prepareLiveEventLocked */
  function PrepareLive(s: MonitorState): MonitorState {
    if s.eventsReady then s
    else s.(lastThreads := ById(s.snapshot.threads), eventsReady := true, baseline := ById(s.snapshot.threads))
  }

  function SetCodex(s: MonitorState, codex: CodexInfo): MonitorState {
    s.(snapshot := s.snapshot.(codex := codex))
  }

  function WithFilesystem(s: MonitorState, threads: seq<Thread>): MonitorState {
    s.(fsThreads := threads)
  }

  function WithConnection(s: MonitorState, connection: Connection, lastError: string): MonitorState {
    SetCodex(s, s.snapshot.codex.(connection := connection, lastError := lastError))
  }

  function RecoveredEvent(now: int): TaskEvent {
    TaskEvent(0, AgentRecovered, "", "", "", "", NoRole, "", "", NoState, NoState, NoSource, NoConfidence, "", false,
              now)
  }

  function WithConnected(s: MonitorState, client: ClientId, appServer: string): MonitorState {
    SetCodex(s.(client := Some(client), snapshot := s.snapshot.(appServer := appServer), phase := Serving),
             s.snapshot.codex.(connection := Connected, visibility := AgentOwned, lastError := ""))
  }

  predicate RecoveryIsDue(previous: Connection) {
    previous == Recovering || previous == Disconnected || previous == ConnectionError
  }

  function WithRecovery(s: MonitorState, previous: Connection, now: int): MonitorState {
    if RecoveryIsDue(previous) then
      var log := Append(s.log, RecoveredEvent(now));
      s.(log := log, broadcast := s.broadcast + Activities(log[|s.log|..]))
    else s
  }

  /** A new app-server connection; the recovery event is emitted if the state read says one is due. */
  function WithClient(s: MonitorState, client: ClientId, appServer: string, now: int): MonitorState {
    WithRecovery(WithConnected(s, client, appServer), s.snapshot.codex.connection, now)
  }

  function FailureThreshold(cfg: Config): int {
    if cfg.failureThreshold > 0 then cfg.failureThreshold else 2
  }

  /** recordAccountResult: the one critical section without a rebuild. */
  function WithAccountResult(s: MonitorState, failed: bool, lastError: string, now: int): MonitorState {
    var codex := s.snapshot.codex;
    var counted := codex.(consecutiveFailures := codex.consecutiveFailures + 1, lastError := lastError);
    SetCodex(
      s.(phase := Refreshing),
      if !failed then codex.(consecutiveFailures := 0)
      else if counted.consecutiveFailures < FailureThreshold(s.cfg) then counted
      else counted.(lastRecoveryAt := Some(now), connection := Recovering))
  }

  function WithResponses(s: MonitorState, threads: seq<Thread>, usage: Payload, rateLimits: Payload): MonitorState {
    s.(appThreads := threads, usage := usage, rateLimits := rateLimits, phase := Serving)
  }

  function RefreshedCodex(codex: CodexInfo, failed: bool, now: int): CodexInfo {
    var reached := codex.(lastSuccessAt := Some(now));
    if failed then reached else reached.(connection := Connected, lastError := "")
  }

  function WithRefresh(s: MonitorState, threads: seq<Thread>, usage: Payload, rateLimits: Payload, failed: bool,
                       now: int): MonitorState {
    SetCodex(WithResponses(s, threads, usage, rateLimits), RefreshedCodex(s.snapshot.codex, failed, now))
  }

  function ReplaceState(t: Thread, threadId: string, state: State, confidence: Confidence, now: int): Thread {
    if t.id == threadId then
      t.(state := state, stateSource := AppServerEvent, stateConfidence := confidence, updatedAt := now)
    else t
  }

  function WithStatus(s: MonitorState, threadId: string, state: State, confidence: Confidence, now: int): MonitorState {
    var p := PrepareLive(s);
    p.(appThreads :=
         seq(|p.appThreads|, i requires 0 <= i < |p.appThreads| =>
                               ReplaceState(p.appThreads[i], threadId, state, confidence, now)))
  }

  function IndexOf(threads: seq<Thread>, id: string): (i: nat)
    ensures i <= |threads|
    ensures i < |threads| ==> threads[i].id == id
    ensures forall j :: 0 <= j < i ==> threads[j].id != id
  {
    if threads == [] || threads[0].id == id then 0 else 1 + IndexOf(threads[1..], id)
  }

  function TurnState(started: bool, status: TurnStatus): State {
    if started || status == InProgress then Running else if status == Failed then Error else Idle
  }

  function TakeTurn(t: Thread, turnId: string, status: TurnStatus, started: bool, now: int): Thread {
    t.(turnId := turnId, lastTurnStatus := status, stateSource := AppServerEvent, stateConfidence := Exact,
       updatedAt := now, state := TurnState(started, status))
  }

  /** turn/started and turn/completed: the first app-server entry of the thread, or a new one. */
  function WithTurn(s: MonitorState, threadId: string, turnId: string, status: TurnStatus, started: bool,
                    now: int): MonitorState {
    var p := PrepareLive(s);
    var i := IndexOf(p.appThreads, threadId);
    var threads := if i < |p.appThreads| then p.appThreads else p.appThreads + [BlankThread(threadId)];
    p.(appThreads := threads[i := TakeTurn(threads[i], turnId, status, started, now)])
  }

  /** serverRequest/resolved: every entry with that app-server id goes. */
  function WithoutResolved(s: MonitorState, appServerId: string): MonitorState {
    s.(pendingRequests :=
         map key | key in s.pendingRequests && s.pendingRequests[key].appServerId != appServerId ::
           s.pendingRequests[key])
  }

  /** recordServerRequest: a fresh id, and an entry that remembers its client. */
  function WithRequest(s: MonitorState, request: PendingRequest, client: ClientId, appServerId: string,
                       now: int): MonitorState {
    var p := PrepareLive(s);
    var id := NextRequestId(p.requestSequence + 1, now);
    p.(requestSequence := p.requestSequence + 1,
       pendingRequests := p.pendingRequests[id :=
                                            PendingControl(request.(id := id, createdAt := now), client, appServerId)])
  }

  /** clearClient: every request of the lost connection goes. */
  function WithoutClient(s: MonitorState, client: ClientId): MonitorState {
    s.(client := if s.client == Some(client) then None else s.client,
       pendingRequests :=
         map key | key in s.pendingRequests && s.pendingRequests[key].client != client :: s.pendingRequests[key])
  }

  function InterruptThread(t: Thread, threadId: string, turnId: string, now: int): Thread {
    if t.id == threadId then
      t.(turnId := turnId, lastTurnStatus := Interrupted, state := Idle,
         stateSource := AppServerControl, stateConfidence := Exact, updatedAt := now)
    else t
  }

  predicate OnTurn(control: PendingControl, threadId: string, turnId: string) {
    control.request.threadId == threadId && control.request.turnId == turnId
  }

  /** Interrupt, once the app-server accepted it. */
  function WithInterrupt(s: MonitorState, threadId: string, turnId: string, now: int): MonitorState {
    s.(appThreads := seq(|s.appThreads|,
                         i requires 0 <= i < |s.appThreads| => InterruptThread(s.appThreads[i], threadId, turnId, now)),
       pendingRequests :=
         map key | key in s.pendingRequests && !OnTurn(s.pendingRequests[key], threadId, turnId) ::
           s.pendingRequests[key])
  }

  /** finishPending: the entry goes only if it is still the one answered. */
  function WithoutRequest(s: MonitorState, requestId: string, expected: PendingControl): MonitorState {
    if requestId in s.pendingRequests && s.pendingRequests[requestId] == expected then
      s.(pendingRequests := s.pendingRequests - {requestId})
    else s
  }

  /** RecordHook; `observation` is None for an event that maps to no state. */
  function WithHook(s: MonitorState, session: string, observation: Option<HookObservation>, now: int): MonitorState {
    var p := PrepareLive(s);
    var counted := p.(snapshot := p.snapshot.(hooks := p.snapshot.hooks.(
                                              receivedEvents := p.snapshot.hooks.receivedEvents + 1,
                                              lastEventAt := Some(now))));
    match observation
    case None => counted
    case Some(o) => counted.(hookSessions := counted.hookSessions[session := o.(receivedAt := now)])
  }

  // ---- Runs ----

  datatype Step =
    | CollectFilesystem(threads: seq<Thread>)
    | Dial
    | DialFailed(lastError: string)
    | Connect(newClient: ClientId, appServer: string)
    | AccountResult(failed: bool, lastError: string)
    | Refresh(threads: seq<Thread>, usage: Payload, rateLimits: Payload, failed: bool)
    | Disconnect(lastError: string)
    | ClearClient(lost: ClientId)
    | StatusChanged(threadId: string, state: State, confidence: Confidence, at: int)
    | TurnChanged(threadId: string, turnId: string, status: TurnStatus, started: bool)
    | Resolved(appServerId: string)
    | ServerRequest(request: PendingRequest, from: ClientId, appServerId: string)
    | Interrupt(threadId: string, turnId: string)
    | Finish(requestId: string, expected: PendingControl)
    | Hook(session: string, observation: Option<HookObservation>)

  /** What each source of threads can supply: none of them fills in request fields. */
  predicate IsSourceThread(t: Thread) {
    t.requestId == "" && t.attentionType == None
  }

  /** When a section can run: the app-server loop's own sections come in the loop's order. */
  predicate Enabled(s: MonitorState, step: Step) {
    match step
    case CollectFilesystem(threads) => forall i :: 0 <= i < |threads| ==> IsSourceThread(threads[i])
    case Dial => s.phase == Waiting
    case DialFailed(_) => s.phase == Dialing
    case Connect(_, _) => s.phase == Dialing
    case AccountResult(_, _) => s.phase == Serving
    case Refresh(threads, _, _, _) => s.phase == Refreshing && forall i :: 0 <= i < |threads| ==>
        IsSourceThread(threads[i])
    case Disconnect(_) => s.phase == Serving
    case _ => true
  }

  function Updated(s: MonitorState, step: Step, now: int): MonitorState {
    match step
    case CollectFilesystem(threads) => WithFilesystem(s, threads)
    case Dial => WithConnection(s, Connecting, "").(phase := Dialing)
    case DialFailed(lastError) => WithConnection(s, ConnectionError, lastError).(phase := Waiting)
    case Connect(client, appServer) => WithClient(s, client, appServer, now)
    case AccountResult(failed, lastError) => WithAccountResult(s, failed, lastError, now)
    case Refresh(threads, usage, rateLimits, failed) => WithRefresh(s, threads, usage, rateLimits, failed, now)
    case Disconnect(lastError) => WithConnection(s, Disconnected, lastError).(phase := Waiting)
    case ClearClient(lost) => WithoutClient(s, lost)
    case StatusChanged(threadId, state, confidence, at) => WithStatus(s, threadId, state, confidence, at)
    case TurnChanged(threadId, turnId, status, started) => WithTurn(s, threadId, turnId, status, started, now)
    case Resolved(appServerId) => WithoutResolved(s, appServerId)
    case ServerRequest(request, from, appServerId) => WithRequest(s, request, from, appServerId, now)
    case Interrupt(threadId, turnId) => WithInterrupt(s, threadId, turnId, now)
    case Finish(requestId, expected) => WithoutRequest(s, requestId, expected)
    case Hook(session, observation) => WithHook(s, session, observation, now)
  }

  /** One critical section. */
  ghost predicate Next(s: MonitorState, step: Step, now: int, s': MonitorState) {
    && Enabled(s, step)
    && if step.AccountResult? then s' == Updated(s, step, now) else Rebuilt(Updated(s, step, now), s', now)
  }

  /** The summary of a monitor that has not collected anything yet. */
  const NO_SUMMARY := Summary(Unknown, NoneSource, UnknownConfidence, 0, 0, 0, 0, StateCounts(0, 0, 0, 0, 0, 0))

  function NewSnapshot(now: int): Snapshot {
    Snapshot(now, 0, false, "", HookInfo(0, 0, None), CodexInfo(Connecting, Unavailable, None, "", 0, None),
             NO_SUMMARY, [], [], None, None)
  }

  /** What New leaves, before anything ran. */
  function NewState(cfg: Config, now: int): MonitorState {
    MonitorState(cfg, NewSnapshot(now), [], [], None, None, map[], map[], false, false, NewSnapshot(now), map[], 0,
                 None,
                 Waiting, [], [], map[])
  }

  ghost predicate Initial(s: MonitorState) {
    && s.snapshot.threads == [] && s.snapshot.pendingRequests == []
    && s.snapshot.codex.visibility == Unavailable && s.snapshot.codex.connection == Connecting
    && s.snapshot.codex.consecutiveFailures == 0 && s.snapshot.summary == NO_SUMMARY
    && s.appThreads == [] && s.fsThreads == [] && s.hookSessions == map[] && s.lastThreads == map[]
    && !s.eventsReady && !s.streamReady && s.pendingRequests == map[] && s.requestSequence == 0 && s.client == None
    && s.phase == Waiting && s.log == [] && s.broadcast == [] && s.baseline == map[]
  }

  /** States at successive lock releases. */
  ghost predicate Run(states: seq<MonitorState>, steps: seq<Step>, times: seq<int>) {
    && |states| == |steps| + 1 == |times| + 1
    && Initial(states[0])
    && (forall i {:trigger steps[i]} :: 0 <= i < |steps| ==> Next(states[i], steps[i], times[i], states[i + 1]))
  }

  // ---- Invariants ----

  ghost predicate Issued(id: string, sequence: nat) {
    exists k: nat, t :: k <= sequence && id == NextRequestId(k, t)
  }

  ghost predicate TableInv(table: RequestTable, sequence: nat) {
    forall key :: key in table ==> table[key].request.id == key && key != "" && Issued(key, sequence)
  }

  /** The log is numbered from 1, never holds a recovery event, and is a faithful view of the last threads. */
  ghost predicate LogTells(log: seq<TaskEvent>, baseline: map<string, Thread>, last: map<string, Thread>) {
    && NumberedLog(log)
    && (forall i :: 0 <= i < |log| ==> log[i].kind != AgentRecovered)
    && (forall id :: id in last ==> last[id].id == id)
    && Faithful(log, baseline, last)
  }

  ghost predicate LogInv(s: MonitorState) {
    && LogTells(s.log, s.baseline, s.lastThreads)
    && (!s.eventsReady ==> s.log == [] && s.lastThreads == map[] && s.snapshot.threads == [])
  }

  ghost predicate FromSources(app: seq<Thread>, fs: seq<Thread>) {
    && (forall i :: 0 <= i < |app| ==> IsSourceThread(app[i]))
    && (forall i :: 0 <= i < |fs| ==> IsSourceThread(fs[i]))
  }

  /** What every critical section may rely on before its rebuild, and keeps. */
  ghost predicate BaseInv(s: MonitorState) {
    && FromSources(s.appThreads, s.fsThreads)
    && TableInv(s.pendingRequests, s.requestSequence)
    && LogInv(s)
    && s.snapshot.codex.visibility != SharedAppServer
    && (s.phase == Dialing ==> s.snapshot.codex.connection == Connecting)
  }

  /** A thread shows a request exactly when the table holds one for it, and shows that request truly. */
  ghost predicate ShowsRequest(t: Thread, table: RequestTable) {
    && (t.requestId != "" <==> t.id in RequestThreads(table))
    && (t.requestId == "" ==> t.attentionType == None)
    && (t.requestId != "" ==>
          && NamesThread(table, t.requestId, t.id)
          && var r := table[t.requestId].request;
             && (r.kind == Approval ==> t.state == WaitingApproval) && (r.kind == Input ==> t.state == WaitingInput)
             && t.attentionType == Some(r.kind) && t.turnId == r.turnId
             && t.controllable == r.controllable && t.updatedAt == r.createdAt)
  }

  ghost predicate RequestsAgree(s: MonitorState) {
    && (forall t :: t in s.snapshot.threads ==> ShowsRequest(t, s.pendingRequests))
    && RequestThreads(s.pendingRequests) <= Ids(s.snapshot.threads)
  }

  /** The signature is that of the shown snapshot, but for an account result awaiting its refresh. */
  ghost predicate Synced(s: MonitorState) {
    s.streamReady ==>
      || Normalize(s.snapshot) == s.streamSignature
      || (s.phase == Refreshing && s.snapshot.codex.consecutiveFailures != s.streamSignature.codex.consecutiveFailures)
  }

  /** The summary is the unshared one of the list beside it, and roles and roots are those of the list's own parents. */
  ghost predicate ListAgrees(shown: Snapshot) {
    && shown.summary == SummaryOf(shown.threads, false)
    && HasTrueRoles(shown.threads)
    && HasTrueRoots(ParentsOf(shown.threads), shown.threads)
  }

  /** Holds at every lock release. */
  ghost predicate Inv(s: MonitorState) {
    && BaseInv(s) && RequestsAgree(s) && Synced(s) && ListAgrees(s.snapshot)
    && UniqueIds(s.snapshot.threads) && s.lastThreads == ById(s.snapshot.threads)
  }
}
