/** The agent's data model (agent/internal/model/model.go) and its workload summary.
    Timestamps are integers: nanoseconds since the Unix epoch. */
module Model {
  import opened Wrappers

  /** `NoState` is the empty string a zero Go `Thread` carries. */
  datatype State = NoState | Running | WaitingApproval | WaitingInput | Idle | Error | Unknown

  datatype StateSource =
    | NoSource | NoneSource | FilesystemInference | AppServerReconcile | AppServerEvent
    | AppServerRequest | AppServerControl | CodexHook

  datatype Confidence = NoConfidence | UnknownConfidence | Inferred | EventDerived | Exact

  datatype Role = NoRole | RootRole | Subagent

  /** The turn statuses the agent tells apart; any other text is `OtherTurn`. */
  datatype TurnStatus = NoTurn | InProgress | Interrupted | Failed | OtherTurn(text: string)

  datatype Thread = Thread(
    id: string, sessionId: string, turnId: string,
    parentThreadId: string, rootThreadId: string, threadRole: Role,
    agentNickname: string, agentRole: string,
    name: string, preview: string, cwd: string, source: string, cliVersion: string,
    state: State, stateSource: StateSource, stateConfidence: Confidence,
    loaded: bool, updatedAt: int, lastTurnStatus: TurnStatus, lastHookEvent: string,
    attentionType: Option<RequestKind>, requestId: string, controllable: bool)

  /** Go's zero `time.Time`: 1 January of year 1. */
  const ZERO_TIME: int := -62135596800 * 1_000_000_000

  function BlankThread(id: string): Thread {
    Thread(id, "", "", "", "", NoRole, "", "", "", "", "", "", "",
           NoState, NoSource, NoConfidence, false, ZERO_TIME, NoTurn, "", None, "", false)
  }

  datatype RequestKind = Approval | Input

  /** The app-server requests the agent understands. */
  datatype RpcMethod = CommandApproval | FileChangeApproval | ToolInput | PermissionApproval | Elicitation | OtherMethod

  datatype PendingRequest = PendingRequest(
    id: string, kind: RequestKind, rpcMethod: RpcMethod,
    threadId: string, turnId: string, itemId: string,
    summary: string, cwd: string, questions: seq<string>,
    availableDecisions: seq<string>, controllable: bool, createdAt: int)

  datatype EventType =
    | TaskStarted | TaskCompleted | ApprovalRequired | InputRequired
    | TaskFailed | TaskInterrupted | TaskResumed | AgentRecovered

  datatype TaskEvent = TaskEvent(
    sequence: nat, kind: EventType, threadId: string, turnId: string,
    parentThreadId: string, rootThreadId: string, threadRole: Role,
    agentNickname: string, taskName: string, fromState: State, toState: State,
    stateSource: StateSource, stateConfidence: Confidence,
    requestId: string, controllable: bool, occurredAt: int)

  datatype StateCounts = StateCounts(
    running: int, waitingApproval: int, waitingInput: int, idle: int, error: int, unknown: int)

  datatype Summary = Summary(
    workloadState: State, stateSource: StateSource, stateConfidence: Confidence,
    knownThreads: int, activeThreads: int, activeWorkflows: int, activeWorkers: int,
    states: StateCounts)

  datatype Connection = Connecting | Connected | Recovering | Disconnected | ConnectionError

  datatype Visibility = Unavailable | FilesystemFallback | AgentOwned | SharedAppServer

  datatype CodexInfo = CodexInfo(
    connection: Connection, visibility: Visibility, lastSuccessAt: Option<int>,
    lastError: string, consecutiveFailures: nat, lastRecoveryAt: Option<int>)

  datatype HookInfo = HookInfo(receivedEvents: nat, activeSessions: nat, lastEventAt: Option<int>)

  /** A JSON object of the app-server passed through verbatim; None is Go's nil map. */
  type Payload = Option<map<string, string>>

  /** The fields of a snapshot that can change during one agent lifetime. */
  datatype Snapshot = Snapshot(
    generatedAt: int, uptime: int, stale: bool, appServer: string,
    hooks: HookInfo, codex: CodexInfo, summary: Summary,
    threads: seq<Thread>, pendingRequests: seq<PendingRequest>,
    usage: Payload, rateLimits: Payload)

  // ---- Thread lists and the maps they enumerate ----

  predicate UniqueIds(threads: seq<Thread>) {
    forall i, j :: 0 <= i < j < |threads| ==> threads[i].id != threads[j].id
  }

  function Ids(threads: seq<Thread>): set<string> {
    set t | t in threads :: t.id
  }

  /** The list holds exactly the threads of `m`, one entry for each id, in some order. */
  ghost predicate Enumerates(threads: seq<Thread>, m: map<string, Thread>) {
    && UniqueIds(threads)
    && (forall i :: 0 <= i < |threads| ==> threads[i].id in m && m[threads[i].id] == threads[i])
    && (forall id :: id in m ==> m[id] in threads && m[id].id == id)
  }

  function ById(threads: seq<Thread>): map<string, Thread> {
    if threads == [] then map[]
    else ById(threads[..|threads| - 1])[threads[|threads| - 1].id := threads[|threads| - 1]]
  }

  lemma {:induction false} ByIdKeys(threads: seq<Thread>)
    ensures ById(threads).Keys == Ids(threads)
    ensures forall id :: id in ById(threads) ==> ById(threads)[id] in threads && ById(threads)[id].id == id
  {
    if threads != [] {
      var front, last := threads[..|threads| - 1], threads[|threads| - 1];
      ByIdKeys(front);
      assert threads == front + [last];
    }
  }

  /** A list without repeated ids enumerates its own index, and no other map. */
  lemma EnumeratesById(threads: seq<Thread>, m: map<string, Thread>)
    ensures UniqueIds(threads) ==> Enumerates(threads, ById(threads))
    ensures Enumerates(threads, m) ==> m == ById(threads)
  {
    ByIdKeys(threads);
    var index := ById(threads);
    if UniqueIds(threads) {
      forall i | 0 <= i < |threads| ensures threads[i].id in index && index[threads[i].id] == threads[i] {
        assert threads[i].id in Ids(threads);
      }
    }
    if Enumerates(threads, m) {
      assert m.Keys == index.Keys;
    }
  }

  // ---- A slice of threads with an index map beside it ----

  /** The slice holds the threads of `m`, and `byId` says where. */
  ghost predicate Indexed(threads: seq<Thread>, byId: map<string, int>, m: map<string, Thread>) {
    && byId.Keys == m.Keys
    && (forall id :: id in byId ==> 0 <= byId[id] < |threads| && threads[byId[id]] == m[id] && m[id].id == id)
    && (forall i :: 0 <= i < |threads| ==> threads[i].id in byId && byId[threads[i].id] == i)
  }

  lemma IndexedEnumerates(threads: seq<Thread>, byId: map<string, int>, m: map<string, Thread>)
    requires Indexed(threads, byId, m)
    ensures Enumerates(threads, m)
  {
    forall id | id in m ensures m[id] in threads && m[id].id == id {
      assert threads[byId[id]] == m[id];
    }
  }

  method IndexById(threads: seq<Thread>, ghost m: map<string, Thread>) returns (byId: map<string, int>)
    requires Enumerates(threads, m)
    ensures Indexed(threads, byId, m)
  {
    byId := map[];
    for i := 0 to |threads|
      invariant forall id :: id in byId ==> 0 <= byId[id] < i && threads[byId[id]].id == id
      invariant forall j :: 0 <= j < i ==> threads[j].id in byId && byId[threads[j].id] == j
    {
      byId := byId[threads[i].id := i];
    }
    forall id | id in m ensures id in byId {
      var i :| 0 <= i < |threads| && threads[i] == m[id];
    }
  }

  /** Look a thread up through the index, appending a blank one when it is missing, and rewrite it in place. */
  method Rewrite(input: seq<Thread>, index: map<string, int>, blank: Thread, update: Thread -> Thread,
                 ghost m: map<string, Thread>)
    returns (threads: seq<Thread>, byId: map<string, int>)
    requires Indexed(input, index, m)
    requires forall t :: update(t).id == t.id
    ensures Indexed(threads, byId, m[blank.id := update(if blank.id in m then m[blank.id] else blank)])
  {
    threads, byId := input, index;
    if blank.id !in byId {
      threads := threads + [blank];
      byId := byId[blank.id := |threads| - 1];
    }
    var i := byId[blank.id];
    threads := threads[i := update(threads[i])];
  }

  // ---- Summary ----

  predicate ActiveState(st: State) {
    st == Running || st == WaitingApproval || st == WaitingInput
  }

  predicate IsActive(t: Thread) {
    ActiveState(t.state)
  }

  function Rank(st: State): nat {
    match st
    case WaitingApproval => 6
    case WaitingInput => 5
    case Error => 4
    case Running => 3
    case Idle => 2
    case Unknown => 1
    case NoState => 1
  }

  function RootKey(t: Thread): string {
    if t.rootThreadId == "" then t.id else t.rootThreadId
  }

  function ActiveRoots(threads: seq<Thread>): set<string> {
    set t | t in threads && IsActive(t) :: RootKey(t)
  }

  function Tally(threads: seq<Thread>, st: State): nat {
    if threads == [] then 0
    else Tally(threads[..|threads| - 1], st) + (if threads[|threads| - 1].state == st then 1 else 0)
  }

  /** The first thread of the highest rank. */
  function Leader(threads: seq<Thread>): Option<Thread> {
    if threads == [] then None
    else
      var best := Leader(threads[..|threads| - 1]);
      var last := threads[|threads| - 1];
      if best == None || Rank(last.state) > Rank(best.value.state) then Some(last) else best
  }

  function TallyAll(threads: seq<Thread>): StateCounts {
    StateCounts(Tally(threads, Running), Tally(threads, WaitingApproval), Tally(threads, WaitingInput),
                Tally(threads, Idle), Tally(threads, Error), Tally(threads, Unknown) + Tally(threads, NoState))
  }

  function ActiveOf(c: StateCounts): int {
    c.running + c.waitingApproval + c.waitingInput
  }

  function SummaryOf(threads: seq<Thread>, sharedVisibility: bool): Summary {
    var counts := TallyAll(threads);
    var active := ActiveOf(counts);
    var best := Leader(threads);
    var silent := threads == [] || (!sharedVisibility && active == 0 && counts.error == 0);
    Summary(
      if silent || best == None then Unknown else best.value.state,
      if silent || best == None then NoneSource else best.value.stateSource,
      if silent || best == None then UnknownConfidence else best.value.stateConfidence,
      |threads|, active, |ActiveRoots(threads)|, active, counts)
  }

  lemma EmptySummary(threads: seq<Thread>)
    requires threads == []
    ensures SummaryOf(threads, false) ==
            Summary(Unknown, NoneSource, UnknownConfidence, 0, 0, 0, 0, StateCounts(0, 0, 0, 0, 0, 0))
  {
    hide Tally, Leader, ActiveRoots;
    NothingTallied(threads);
  }

  lemma NothingTallied(threads: seq<Thread>)
    requires threads == []
    ensures ActiveRoots(threads) == {} && Leader(threads) == None && forall st :: Tally(threads, st) == 0
  {
    hide IsActive;
  }

  lemma ActiveRootsOfOneMore(front: seq<Thread>, last: Thread)
    ensures ActiveRoots(front + [last]) == ActiveRoots(front) + (if IsActive(last) then {RootKey(last)} else {})
  {
    forall t ensures t in front + [last] <==> t in front || t == last {}
  }

  function CountOne(c: StateCounts, st: State): StateCounts {
    match st
    case WaitingApproval => c.(waitingApproval := c.waitingApproval + 1)
    case WaitingInput => c.(waitingInput := c.waitingInput + 1)
    case Error => c.(error := c.error + 1)
    case Running => c.(running := c.running + 1)
    case Idle => c.(idle := c.idle + 1)
    case _ => c.(unknown := c.unknown + 1)
  }

  datatype Best = Best(rank: nat, workload: State, source: StateSource, confidence: Confidence)

  function BestOf(leader: Option<Thread>): Best {
    match leader
    case None => Best(0, Unknown, NoneSource, UnknownConfidence)
    case Some(t) => Best(Rank(t.state), t.state, t.stateSource, t.stateConfidence)
  }

  /** What the summarising loop has accumulated after a prefix of the threads. */
  ghost predicate Scanned(prefix: seq<Thread>, states: StateCounts, active: int, roots: set<string>, best: Best) {
    && states == TallyAll(prefix)
    && active == ActiveOf(states)
    && roots == ActiveRoots(prefix)
    && best == BestOf(Leader(prefix))
  }

  lemma TallyAllOfOneMore(prefix: seq<Thread>, last: Thread)
    ensures TallyAll(prefix + [last]) == CountOne(TallyAll(prefix), last.state)
  {
    var longer := prefix + [last];
    assert longer[..|longer| - 1] == prefix;
    forall st ensures Tally(longer, st) == Tally(prefix, st) + (if last.state == st then 1 else 0) {}
  }

  lemma LeaderOfOneMore(prefix: seq<Thread>, last: Thread)
    ensures BestOf(Leader(prefix + [last])) ==
            if Rank(last.state) > BestOf(Leader(prefix)).rank then BestOf(Some(last)) else BestOf(Leader(prefix))
  {
    var longer := prefix + [last];
    assert longer[..|longer| - 1] == prefix;
  }

  lemma ActiveOfOneMore(c: StateCounts, t: Thread)
    ensures ActiveOf(CountOne(c, t.state)) == ActiveOf(c) + (if IsActive(t) then 1 else 0)
  {
  }

  lemma ScanOneMore(prefix: seq<Thread>, last: Thread, states: StateCounts, active: int, roots: set<string>, best: Best)
    requires Scanned(prefix, states, active, roots, best)
    ensures Scanned(prefix + [last], CountOne(states, last.state),
                    if IsActive(last) then active + 1 else active,
                    if IsActive(last) then roots + {RootKey(last)} else roots,
                    if Rank(last.state) > best.rank then BestOf(Some(last)) else best)
  {
    TallyAllOfOneMore(prefix, last);
    ActiveRootsOfOneMore(prefix, last);
    LeaderOfOneMore(prefix, last);
    ActiveOfOneMore(states, last);
  }

  lemma ScanDone(threads: seq<Thread>, sharedVisibility: bool, states: StateCounts, active: int, roots: set<string>,
                 best: Best)
    requires Scanned(threads, states, active, roots, best)
    ensures var silent := threads == [] || (!sharedVisibility && active == 0 && states.error == 0);
            var shown := if silent then BestOf(None) else best;
            SummaryOf(threads, sharedVisibility) ==
            Summary(shown.workload, shown.source, shown.confidence, |threads|, active, |roots|, active, states)
  {
  }

  lemma ScanStart()
    ensures Scanned([], StateCounts(0, 0, 0, 0, 0, 0), 0, {}, BestOf(None))
  {
    NothingTallied([]);
  }

  /** One pass over the threads with six counters, a best rank and a set of roots. */
  method Summarize(threads: seq<Thread>, sharedVisibility: bool) returns (s: Summary)
    ensures s == SummaryOf(threads, sharedVisibility)
  {
    hide Tally, TallyAll, Leader, ActiveRoots, SummaryOf, Rank, CountOne, BestOf, ActiveOf, RootKey, IsActive, Scanned;
    ScanStart();
    var states, active := StateCounts(0, 0, 0, 0, 0, 0), 0;
    var best := BestOf(None);
    var roots: set<string> := {};
    ghost var seen: seq<Thread> := [];
    for i := 0 to |threads|
      invariant seen == threads[..i] && Scanned(seen, states, active, roots, best)
    {
      var thread := threads[i];
      ScanOneMore(seen, thread, states, active, roots, best);
      seen := seen + [thread];
      states := CountOne(states, thread.state);
      if IsActive(thread) {
        active := active + 1;
        roots := roots + {RootKey(thread)};
      }
      if Rank(thread.state) > best.rank {
        best := BestOf(Some(thread));
      }
    }
    assert threads[..|threads|] == threads;
    ScanDone(threads, sharedVisibility, states, active, roots, best);
    if |threads| == 0 || (!sharedVisibility && active == 0 && states.error == 0) {
      best := BestOf(None);
    }
    s := Summary(best.workload, best.source, best.confidence, |threads|, active, |roots|, active, states);
  }

  /** The six counters count every thread once. */
  lemma {:induction false} CountersPartition(threads: seq<Thread>)
    ensures var c := TallyAll(threads);
            c.running + c.waitingApproval + c.waitingInput + c.idle + c.error + c.unknown == |threads|
  {
    if threads != [] {
      CountersPartition(threads[..|threads| - 1]);
    }
  }

  lemma {:induction false} TallyPresence(threads: seq<Thread>, st: State)
    ensures Tally(threads, st) > 0 <==> exists t :: t in threads && t.state == st
  {
    if threads != [] {
      var front, last := threads[..|threads| - 1], threads[|threads| - 1];
      TallyPresence(front, st);
      assert threads == front + [last];
    }
  }

  ghost predicate IsFirstBest(threads: seq<Thread>, i: int) {
    && 0 <= i < |threads|
    && (forall j :: 0 <= j < |threads| ==> Rank(threads[j].state) <= Rank(threads[i].state))
    && (forall j :: 0 <= j < i ==> Rank(threads[j].state) < Rank(threads[i].state))
  }

  lemma {:induction false} LeaderIsFirstBest(threads: seq<Thread>) returns (i: int)
    requires threads != []
    ensures IsFirstBest(threads, i) && Leader(threads) == Some(threads[i])
  {
    var front, last := threads[..|threads| - 1], threads[|threads| - 1];
    i := 0;
    if front != [] {
      i := LeaderIsFirstBest(front);
      if Rank(last.state) > Rank(front[i].state) {
        i := |front|;
      }
    }
  }

  /** The state attention-first priority picks, read off the counters alone. */
  function PriorityState(c: StateCounts): State {
    if c.waitingApproval > 0 then WaitingApproval
    else if c.waitingInput > 0 then WaitingInput
    else if c.error > 0 then Error
    else if c.running > 0 then Running
    else Unknown
  }

  lemma PriorityFromRank(c: StateCounts, best: State)
    requires c.waitingApproval > 0 ==> Rank(best) >= 6
    requires c.waitingInput > 0 ==> Rank(best) >= 5
    requires c.error > 0 ==> Rank(best) >= 4
    requires c.running > 0 ==> Rank(best) >= 3
    requires best == WaitingApproval ==> c.waitingApproval > 0
    requires best == WaitingInput ==> c.waitingInput > 0
    requires best == Error ==> c.error > 0
    requires best == Running ==> c.running > 0
    requires c.running >= 0 && c.waitingInput >= 0 && c.waitingApproval >= 0 && c.error >= 0
    ensures PriorityState(c) == if ActiveOf(c) == 0 && c.error == 0 then Unknown else best
  {
  }

  /** Without shared visibility the workload is a function of the counters, and never IDLE. */
  lemma WorkloadByPriority(threads: seq<Thread>)
    ensures SummaryOf(threads, false).workloadState == PriorityState(TallyAll(threads)) != Idle
  {
    if threads != [] {
      var i := LeaderIsFirstBest(threads);
      TallyPresence(threads, WaitingApproval);
      TallyPresence(threads, WaitingInput);
      TallyPresence(threads, Error);
      TallyPresence(threads, Running);
      PriorityFromRank(TallyAll(threads), threads[i].state);
    }
  }

  lemma {:induction false} TallyConcat(a: seq<Thread>, b: seq<Thread>, st: State)
    ensures Tally(a + b, st) == Tally(a, st) + Tally(b, st)
  {
    if b == [] {
      assert a + b == a;
    } else {
      assert (a + b)[..|a + b| - 1] == a + b[..|b| - 1];
      TallyConcat(a, b[..|b| - 1], st);
    }
  }

  lemma TakeOneOut(s: seq<Thread>, j: nat)
    requires j < |s|
    ensures s == s[..j] + ([s[j]] + s[j + 1..])
    ensures multiset(s) == multiset(s[..j] + s[j + 1..]) + multiset{s[j]}
  {
    assert s == s[..j] + ([s[j]] + s[j + 1..]);
  }

  lemma CancelOne<T>(m: multiset<T>, n: multiset<T>, x: T)
    requires m + multiset{x} == n + multiset{x}
    ensures m == n
  {
    assert m == (m + multiset{x}) - multiset{x};
    assert n == (n + multiset{x}) - multiset{x};
  }

  lemma SameRest(a: seq<Thread>, b: seq<Thread>) returns (j: nat)
    requires multiset(a) == multiset(b) && a != []
    ensures j < |b| && b[j] == a[0] && multiset(a[1..]) == multiset(b[..j] + b[j + 1..])
  {
    assert a[0] in multiset(b);
    j :| 0 <= j < |b| && b[j] == a[0];
    TakeOneOut(a, 0);
    TakeOneOut(b, j);
    assert a[..0] + a[1..] == a[1..];
    CancelOne(multiset(a[1..]), multiset(b[..j] + b[j + 1..]), a[0]);
  }

  lemma TallyOneOut(s: seq<Thread>, j: nat, st: State)
    requires j < |s|
    ensures Tally(s, st) == Tally(s[..j] + s[j + 1..], st) + Tally([s[j]], st)
  {
    hide Tally;
    TakeOneOut(s, j);
    TallyConcat(s[..j], [s[j]] + s[j + 1..], st);
    TallyConcat([s[j]], s[j + 1..], st);
    TallyConcat(s[..j], s[j + 1..], st);
  }

  lemma {:induction false} TallyPermutation(a: seq<Thread>, b: seq<Thread>, st: State)
    requires multiset(a) == multiset(b)
    ensures Tally(a, st) == Tally(b, st)
    decreases |a|
  {
    hide Tally;
    if a == [] {
      assert |multiset(b)| == |multiset(a)| == 0;
      assert b == [];
    } else {
      var j := SameRest(a, b);
      TallyPermutation(a[1..], b[..j] + b[j + 1..], st);
      TallyOneOut(a, 0, st);
      TallyOneOut(b, j, st);
      assert a[..0] + a[1..] == a[1..];
    }
  }

  /** Order of the threads does not matter to any count, nor to the unshared workload. */
  lemma SummaryIgnoresOrder(a: seq<Thread>, b: seq<Thread>)
    requires multiset(a) == multiset(b)
    ensures var s, t := SummaryOf(a, false), SummaryOf(b, false);
            && s.states == t.states && s.workloadState == t.workloadState && s.knownThreads == t.knownThreads
            && s.activeThreads == t.activeThreads && s.activeWorkflows == t.activeWorkflows
                && s.activeWorkers == t.activeWorkers
  {
    forall st ensures Tally(a, st) == Tally(b, st) {
      TallyPermutation(a, b, st);
    }
    assert |multiset(a)| == |a| && |multiset(b)| == |b|;
    forall t ensures t in a <==> t in b {
      assert t in a <==> t in multiset(a);
      assert t in b <==> t in multiset(b);
    }
    assert ActiveRoots(a) == ActiveRoots(b);
    WorkloadByPriority(a);
    WorkloadByPriority(b);
  }

  /** Every workflow counted has a worker counted. */
  lemma {:induction false} WorkflowsWithinWorkers(threads: seq<Thread>)
    ensures |ActiveRoots(threads)| <= ActiveOf(TallyAll(threads))
  {
    if threads == [] {
      assert ActiveRoots(threads) == {};
    } else {
      var front, last := threads[..|threads| - 1], threads[|threads| - 1];
      assert threads == front + [last];
      WorkflowsWithinWorkers(front);
      ActiveRootsOfOneMore(front, last);
      TallyAllOfOneMore(front, last);
      ActiveOfOneMore(TallyAll(front), last);
    }
  }

  // ---- The summary in words ----

  /** The places at which the list holds a thread in that state. */
  function Places(threads: seq<Thread>, st: State): set<nat> {
    set i: nat | i < |threads| && threads[i].state == st
  }

  lemma {:induction false} TallyCountsPlaces(threads: seq<Thread>, st: State)
    ensures Tally(threads, st) == |Places(threads, st)|
  {
    if threads != [] {
      var front, last := threads[..|threads| - 1], threads[|threads| - 1];
      TallyCountsPlaces(front, st);
      PlacesOfOneMore(front, last, st);
      assert threads == front + [last];
      hide Places;
    }
  }

  lemma PlacesOfOneMore(front: seq<Thread>, last: Thread, st: State)
    ensures Places(front + [last], st) == Places(front, st) + (if last.state == st then {|front| as nat} else {})
    ensures |front| !in Places(front, st)
  {
  }

  /** What asks for attention comes first. */
  predicate Outranks(a: State, b: State) {
    || (a == WaitingApproval && b != WaitingApproval)
    || (a == WaitingInput && b in {Error, Running, Idle, Unknown, NoState})
    || (a == Error && b in {Running, Idle, Unknown, NoState})
    || (a == Running && b in {Idle, Unknown, NoState})
    || (a == Idle && b in {Unknown, NoState})
  }

  predicate Shows(s: Summary, t: Thread) {
    s.workloadState == t.state && s.stateSource == t.stateSource && s.stateConfidence == t.stateConfidence
  }

  /** The first thread no other outranks. */
  ghost predicate Foremost(threads: seq<Thread>, i: nat) {
    && i < |threads|
    && (forall j :: 0 <= j < |threads| ==> !Outranks(threads[j].state, threads[i].state))
    && (forall j :: 0 <= j < i ==> Outranks(threads[i].state, threads[j].state))
  }

  /** Each state is counted by itself. */
  lemma CountersInWords(threads: seq<Thread>)
    ensures var c := TallyAll(threads);
            && c.running == |Places(threads, Running)| && c.waitingApproval == |Places(threads, WaitingApproval)|
            && c.waitingInput == |Places(threads, WaitingInput)| && c.idle == |Places(threads, Idle)|
            && c.error == |Places(threads, Error)|
            && c.unknown == |Places(threads, Unknown)| + |Places(threads, NoState)|
  {
    forall st ensures Tally(threads, st) == |Places(threads, st)| {
      TallyCountsPlaces(threads, st);
    }
    hide Places, Tally;
  }

  /** What is counted, in terms of the list alone. */
  lemma CountsInWords(threads: seq<Thread>, shared: bool)
    ensures var s := SummaryOf(threads, shared);
            && s.knownThreads == |threads|
            && s.activeThreads == s.activeWorkers
               == |Places(threads, Running)| + |Places(threads, WaitingApproval)| + |Places(threads, WaitingInput)|
            && s.activeWorkflows ==
               |set t | t in threads && t.state in {Running, WaitingApproval, WaitingInput} ::
                 if t.rootThreadId != "" then t.rootThreadId else t.id|
  {
    CountersInWords(threads);
    assert ActiveRoots(threads) ==
           set t | t in threads && t.state in {Running, WaitingApproval, WaitingInput} ::
             if t.rootThreadId != "" then t.rootThreadId else t.id;
    hide Places, Tally, Leader, ActiveRoots;
  }

  /** The workload is unknown if nothing is active or failed and the list is not known to be all there is, and otherwise
      taken from the first thread no other outranks. */
  lemma WorkloadInWords(threads: seq<Thread>, shared: bool)
    ensures var s := SummaryOf(threads, shared);
            if threads == [] || (!shared && forall t :: t in threads ==> t.state in {Idle, Unknown, NoState})
            then s.workloadState == Unknown && s.stateSource == NoneSource && s.stateConfidence == UnknownConfidence
            else exists i: nat :: Foremost(threads, i) && Shows(s, threads[i])
  {
    SilentInWords(threads);
    if threads != [] {
      var i := LeaderIsFirstBest(threads);
      ForemostIsFirstBest(threads, i);
    }
    hide Places, TallyAll, Leader, ActiveRoots, Foremost, IsFirstBest;
  }

  lemma SilentInWords(threads: seq<Thread>)
    ensures var c := TallyAll(threads);
            ActiveOf(c) == 0 && c.error == 0 <==> forall t :: t in threads ==> t.state in {Idle, Unknown, NoState}
  {
    TallyPresence(threads, Running);
    TallyPresence(threads, WaitingApproval);
    TallyPresence(threads, WaitingInput);
    TallyPresence(threads, Error);
    hide Tally;
  }

  lemma ForemostIsFirstBest(threads: seq<Thread>, i: int)
    requires IsFirstBest(threads, i)
    ensures Foremost(threads, i)
  {
    forall a, b ensures Rank(a) > Rank(b) <==> Outranks(a, b) {}
    hide Rank, Outranks;
  }
}
