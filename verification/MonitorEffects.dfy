/** What each message, action and loss does to the threads the agent shows. */
module MonitorEffects {
  import opened Wrappers
  import opened Model
  import opened Merge
  import opened Hooks
  import opened Decorate
  import opened Transitions
  import opened Stream
  import opened MonitorState
  import opened MonitorProofs
  import MonitorTheorems

  /** Nothing overrides what the app-server says of the thread. */
  ghost predicate Unobscured(s: MonitorState, id: string, now: int) {
    id !in RequestThreads(s.pendingRequests) && id !in LiveHooks(s.cfg.hooks, s.hookSessions, now)
  }

  /** The thread is on the list, once, in that state. */
  ghost predicate Shows(s: MonitorState, id: string, state: State) {
    && (exists t :: t in s.snapshot.threads && t.id == id)
    && (forall t :: t in s.snapshot.threads && t.id == id ==> t.state == state)
  }

  /** A rebuild shows every known thread by precedence. */
  lemma RebuiltShows(s: MonitorState, s': MonitorState, now: int, id: string)
    requires Rebuilt(s, s', now)
    requires id in Ids(s.appThreads) || id in RequestThreads(s.pendingRequests)
             || id in LiveHooks(s.cfg.hooks, s.hookSessions, now)
    ensures s'.pendingRequests == s.pendingRequests
    ensures Unobscured(s, id, now) && LastKnownState(s.appThreads, id).Some? ==>
            Shows(s', id, LastKnownState(s.appThreads, id).value)
    ensures id !in RequestThreads(s.pendingRequests) && id in LiveHooks(s.cfg.hooks, s.hookSessions, now) ==>
              Shows(s', id, s.hookSessions[id].state)
  {
    hide RebuiltWith, LiveHooks, RebuiltSnapshot, RequestThreads, UniqueIds;
    var uptime, choice, threads, requests :| RebuiltWith(s, s', now, uptime, choice, threads, requests);
    RebuiltFields(s, s', now, uptime, choice, threads, requests);
    RebuildRefinesPrecedence(s, s', now, uptime, choice, threads, requests);
    ChosenThreads(s, s', now, uptime, choice, threads, requests);
    LiveIsSession(s, now, id);
    hide LastKnownState, FilesystemAt;
    assert id in Ids(threads);
  }

  /** The one entry a rebuild shows of an app-server thread: how its last turn ended is as its last entry there
      says; unless something overrides it, so are its turn, and its state with all that goes with it as the last
      entry with a known state says. */
  lemma RebuiltThread(s: MonitorState, s': MonitorState, now: int, id: string) returns (t: Thread)
    requires Rebuilt(s, s', now) && id in Ids(s.appThreads)
    ensures t in s'.snapshot.threads && t.id == id
    ensures forall u :: u in s'.snapshot.threads && u.id == id ==> u == t
    ensures t.lastTurnStatus == FilesystemAt(s.appThreads, id).value.lastTurnStatus
    ensures Unobscured(s, id, now) ==> t.turnId == FilesystemAt(s.appThreads, id).value.turnId
    ensures Unobscured(s, id, now) && LastKnown(s.appThreads, id).Some? ==>
              SameState(t, LastKnown(s.appThreads, id).value)
  {
    hide RebuiltWith, LiveHooks, RebuiltSnapshot, RequestThreads, ComposeThreads, SameState, PrecedenceState,
         IsSourceThread, Bears, LastKnown, FilesystemAt, IsChoice, Enumerates, Events, AppendAll, ById, Normalize;
    var uptime, choice, threads, requests :| RebuiltWith(s, s', now, uptime, choice, threads, requests);
    RebuiltFields(s, s', now, uptime, choice, threads, requests);
    ChosenThreads(s, s', now, uptime, choice, threads, requests);
    var live := LiveHooks(s.cfg.hooks, s.hookSessions, now);
    ComposedThread(s.appThreads, s.fsThreads, live, choice, id);
    t := RebuiltEntry(s, s', now, uptime, choice, threads, requests, id);
  }

  /** The only entry a rebuild shows of an id it composes. */
  lemma RebuiltEntry(s: MonitorState, s': MonitorState, now: int, uptime: int, choice: map<string, PendingRequest>,
                     threads: seq<Thread>, requests: seq<PendingRequest>, id: string)
      returns (t: Thread)
    requires RebuiltWith(s, s', now, uptime, choice, threads, requests)
    requires id in ComposeThreads(s.appThreads, s.fsThreads, LiveHooks(s.cfg.hooks, s.hookSessions, now), choice)
    ensures t == ComposeThreads(s.appThreads, s.fsThreads, LiveHooks(s.cfg.hooks, s.hookSessions, now), choice)[id]
    ensures t in s'.snapshot.threads && t.id == id
    ensures forall u :: u in s'.snapshot.threads && u.id == id ==> u == t
  {
    hide LiveHooks, RebuiltSnapshot, AfterRebuild, ComposeThreads, Lists, IsChoice, Enumerates;
    RebuiltFields(s, s', now, uptime, choice, threads, requests);
    ShowsThreads(s, now, uptime, threads, requests);
    var m := ComposeThreads(s.appThreads, s.fsThreads, LiveHooks(s.cfg.hooks, s.hookSessions, now), choice);
    EnumeratedIds(threads, m);
    t := m[id];
    ListedOne(threads, m, id);
  }

  lemma ShowsThreads(s: MonitorState, now: int, uptime: int, threads: seq<Thread>, requests: seq<PendingRequest>)
    ensures RebuiltSnapshot(s, now, uptime, threads, requests).threads == threads
  {
  }

  lemma ListedOne(threads: seq<Thread>, m: map<string, Thread>, id: string)
    requires Enumerates(threads, m) && id in m
    ensures m[id] in threads
  {
  }

  lemma ChosenThreads(s: MonitorState, s': MonitorState, now: int, uptime: int,
                      choice: map<string, PendingRequest>, threads: seq<Thread>, requests: seq<PendingRequest>)
    requires RebuiltWith(s, s', now, uptime, choice, threads, requests)
    ensures choice.Keys == RequestThreads(s.pendingRequests)
  {
    hide AfterRebuild, ComposeThreads, Enumerates, Lists;
  }

  lemma LiveIsSession(s: MonitorState, now: int, id: string)
    ensures id in LiveHooks(s.cfg.hooks, s.hookSessions, now) ==>
              id in s.hookSessions && LiveHooks(s.cfg.hooks, s.hookSessions, now)[id] == s.hookSessions[id]
  {
  }

  lemma Entered(s: MonitorState, step: Step, now: int, s': MonitorState)
    requires Next(s, step, now, s') && !step.AccountResult?
    ensures Rebuilt(Updated(s, step, now), s', now)
    ensures Inv(s) ==> BaseInv(Updated(s, step, now))
  {
    hide Updated, Rebuilt, Enabled, BaseInv, RequestsAgree, Synced;
    if Inv(s) {
      SectionKeepsBase(s, step, now);
    }
  }

  // ---- App-server messages ----

  predicate SameOverrides(s: MonitorState, s': MonitorState) {
    s'.cfg == s.cfg && s'.pendingRequests == s.pendingRequests && s'.hookSessions == s.hookSessions
  }

  /** From index `i` on, no entry of the thread has a state the app-server knows. */
  predicate NoneKnownFrom(app: seq<Thread>, i: int, id: string) {
    forall j :: 0 <= j < |app| && i <= j && app[j].id == id ==> app[j].state == Unknown
  }

  /** The last entry of a thread with a known state gives it. */
  lemma {:induction false} LastKnownAt(app: seq<Thread>, i: nat)
    requires i < |app| && app[i].state != Unknown && NoneKnownFrom(app, i + 1, app[i].id)
    ensures LastKnown(app, app[i].id) == Some(app[i])
  {
    if i < |app| - 1 {
      var front := app[..|app| - 1];
      assert forall j :: 0 <= j < |front| ==> front[j] == app[j];
      LastKnownAt(front, i);
    }
  }

  lemma TurnTaken(s: MonitorState, threadId: string, turnId: string, status: TurnStatus, started: bool, now: int)
      returns (i: nat)
    requires NoneKnownFrom(s.appThreads, IndexOf(s.appThreads, threadId) + 1, threadId)
    ensures var s' := WithTurn(s, threadId, turnId, status, started, now);
            && SameOverrides(s, s')
            && i == IndexOf(s.appThreads, threadId) < |s'.appThreads|
            && TookTurn(s'.appThreads[i], if i < |s.appThreads| then s.appThreads[i] else BlankThread(threadId),
                        threadId, turnId, status, started, now)
            && NoneKnownFrom(s'.appThreads, i + 1, threadId)
            && (forall j :: 0 <= j < |s.appThreads| && j != i ==> s'.appThreads[j] == s.appThreads[j])
            && |s'.appThreads| == (if i < |s.appThreads| then |s.appThreads| else i + 1)
  {
    i := IndexOf(PrepareLive(s).appThreads, threadId);
  }

  /** Nothing else of the entry is written to. */
  predicate KeptTheRest(t: Thread, was: Thread) {
    t.(turnId := was.turnId, lastTurnStatus := was.lastTurnStatus, state := was.state, stateSource := was.stateSource,
       stateConfidence := was.stateConfidence, updatedAt := was.updatedAt) == was
  }

  /** An entry a turn message has written to. */
  predicate TookTurn(t: Thread, was: Thread, threadId: string, turnId: string, status: TurnStatus, started: bool,
                     now: int) {
    && KeptTheRest(t, was)
    && t.id == threadId && t.turnId == turnId && t.lastTurnStatus == status && t.updatedAt == now
    && t.stateSource == AppServerEvent && t.stateConfidence == Exact
    && (started || status == InProgress ==> t.state == Running)
    && (!started && status == Failed ==> t.state == Error)
    && (!started && status != InProgress && status != Failed ==> t.state == Idle)
  }

  lemma ListedId(app: seq<Thread>, i: nat)
    requires i < |app|
    ensures app[i].id in Ids(app)
  {
    assert app[i] in app;
  }

  /** After a turn message the thread is shown running if the turn started or is in progress, failed if it failed
      and idle otherwise, on the app-server's word, unless a pending request or a live hook says more, or the app-server
      lists the thread again with another known state. */
  lemma TurnIsShown(s: MonitorState, threadId: string, turnId: string, status: TurnStatus, started: bool, now: int,
                    s': MonitorState)
      returns (t: Thread)
    requires NoneKnownFrom(s.appThreads, IndexOf(s.appThreads, threadId) + 1, threadId) && Unobscured(s, threadId, now)
    requires Next(s, TurnChanged(threadId, turnId, status, started), now, s')
    ensures t in s'.snapshot.threads && t.id == threadId
    ensures forall u :: u in s'.snapshot.threads && u.id == threadId ==> u == t
    ensures started || status == InProgress ==> t.state == Running
    ensures !started && status == Failed ==> t.state == Error
    ensures !started && status != InProgress && status != Failed ==> t.state == Idle
    ensures t.stateSource == AppServerEvent && t.stateConfidence == Exact && t.updatedAt == now
    ensures (forall j :: IndexOf(s.appThreads, threadId) < j < |s.appThreads| ==> s.appThreads[j].id != threadId) ==>
              t.lastTurnStatus == status && t.turnId == turnId
  {
    hide Rebuilt, LiveHooks, Next, Updated, Enabled, WithTurn, RequestThreads, LastKnownState, NoneKnownFrom, Ids,
         LastKnown, FilesystemAt;
    Entered(s, TurnChanged(threadId, turnId, status, started), now, s');
    MessageUpdates(s, now);
    var i := TurnTaken(s, threadId, turnId, status, started, now);
    var mid := WithTurn(s, threadId, turnId, status, started, now);
    LastKnownAt(mid.appThreads, i);
    ListedId(mid.appThreads, i);
    t := RebuiltThread(mid, s', now, threadId);
    if forall j :: i < j < |s.appThreads| ==> s.appThreads[j].id != threadId {
      LastEntryAt(mid.appThreads, i);
    }
  }

  /** The last entry of an id. */
  lemma {:induction false} LastEntryAt(app: seq<Thread>, i: nat)
    requires i < |app| && forall j :: i < j < |app| ==> app[j].id != app[i].id
    ensures FilesystemAt(app, app[i].id) == Some(app[i])
  {
    if i < |app| - 1 {
      var front := app[..|app| - 1];
      assert forall j :: 0 <= j < |front| ==> front[j] == app[j];
      LastEntryAt(front, i);
    }
  }

  /** An entry a status message has written to. */
  predicate TookStatus(t: Thread, was: Thread, state: State, confidence: Confidence, at: int) {
    && KeptTheRest(t, was) && t.turnId == was.turnId && t.lastTurnStatus == was.lastTurnStatus
    && t.state == state && t.stateSource == AppServerEvent && t.stateConfidence == confidence && t.updatedAt == at
  }

  lemma StatusTaken(s: MonitorState, threadId: string, state: State, confidence: Confidence, at: int)
    requires threadId in Ids(s.appThreads)
    ensures var s' := WithStatus(s, threadId, state, confidence, at);
            && SameOverrides(s, s') && |s'.appThreads| == |s.appThreads| && threadId in Ids(s'.appThreads)
            && (forall i :: 0 <= i < |s'.appThreads| && s'.appThreads[i].id == threadId ==>
                  TookStatus(s'.appThreads[i], s.appThreads[i], state, confidence, at))
            && (forall i :: 0 <= i < |s.appThreads| && s.appThreads[i].id != threadId ==>
                  s'.appThreads[i] == s.appThreads[i])
  {
    hide WithStatus, TookStatus, ReplaceState;
    StatusEntries(s, threadId, state, confidence, at);
    var app := WithStatus(s, threadId, state, confidence, at).appThreads;
    forall i | 0 <= i < |app|
      ensures app[i].id == s.appThreads[i].id
      ensures if app[i].id == threadId then TookStatus(app[i], s.appThreads[i], state, confidence, at)
              else app[i] == s.appThreads[i]
    {
      StatusReplaced(s.appThreads[i], threadId, state, confidence, at);
    }
    var t :| t in s.appThreads && t.id == threadId;
    var i :| 0 <= i < |s.appThreads| && s.appThreads[i] == t;
    assert app[i] in app && app[i].id == threadId;
  }

  lemma StatusEntries(s: MonitorState, threadId: string, state: State, confidence: Confidence, at: int)
    ensures var s' := WithStatus(s, threadId, state, confidence, at);
            && SameOverrides(s, s') && |s'.appThreads| == |s.appThreads|
            && (forall i :: 0 <= i < |s'.appThreads| ==>
                  s'.appThreads[i] == ReplaceState(s.appThreads[i], threadId, state, confidence, at))
  {
    hide ReplaceState;
  }

  lemma StatusReplaced(t: Thread, threadId: string, state: State, confidence: Confidence, at: int)
    ensures var u := ReplaceState(t, threadId, state, confidence, at);
            u.id == t.id && if t.id == threadId then TookStatus(u, t, state, confidence, at) else u == t
  {
  }

  /** When every entry of an id has a known state, the last one tells it. */
  lemma {:induction false} LastKnownIsLast(app: seq<Thread>, id: string)
    requires id in Ids(app) && forall i :: 0 <= i < |app| && app[i].id == id ==> app[i].state != Unknown
    ensures LastKnown(app, id) == FilesystemAt(app, id)
    ensures exists i :: 0 <= i < |app| && app[i].id == id && FilesystemAt(app, id) == Some(app[i])
  {
    var front, last := app[..|app| - 1], app[|app| - 1];
    assert app == front + [last];
    if last.id != id {
      assert id in Ids(front);
      assert forall i :: 0 <= i < |front| ==> front[i] == app[i];
      LastKnownIsLast(front, id);
    }
  }

  /** A status the app-server knows is what is shown, however many entries it has for the thread. */
  lemma StatusIsShown(s: MonitorState, threadId: string, state: State, confidence: Confidence, at: int, now: int,
                      s': MonitorState)
      returns (t: Thread)
    requires threadId in Ids(s.appThreads) && Unobscured(s, threadId, now) && state != Unknown
    requires Next(s, StatusChanged(threadId, state, confidence, at), now, s')
    ensures t in s'.snapshot.threads && t.id == threadId
    ensures forall u :: u in s'.snapshot.threads && u.id == threadId ==> u == t
    ensures t.state == state && t.stateSource == AppServerEvent && t.stateConfidence == confidence && t.updatedAt == at
  {
    hide Rebuilt, LiveHooks, Next, Updated, Enabled, WithStatus, RequestThreads, LastKnownState, LastKnown,
         FilesystemAt;
    Entered(s, StatusChanged(threadId, state, confidence, at), now, s');
    MessageUpdates(s, now);
    StatusTaken(s, threadId, state, confidence, at);
    var mid := WithStatus(s, threadId, state, confidence, at);
    LastKnownIsLast(mid.appThreads, threadId);
    t := RebuiltThread(mid, s', now, threadId);
  }

  // ---- Requests ----

  /** What the snapshot says of requests after a section that ends in `table`. */
  lemma RebuiltRequests(s: MonitorState, s': MonitorState, now: int)
    requires BaseInv(s) && Rebuilt(s, s', now)
    ensures s'.pendingRequests == s.pendingRequests
    ensures forall t :: t in s'.snapshot.threads ==> ShowsRequest(t, s.pendingRequests)
    ensures RequestThreads(s.pendingRequests) <= Ids(s'.snapshot.threads)
  {
    RebuildKeepsBase(s, s', now);
    hide RebuiltWith, BaseInv, Synced;
    var uptime, choice, threads, requests :| RebuiltWith(s, s', now, uptime, choice, threads, requests);
    RebuiltFields(s, s', now, uptime, choice, threads, requests);
  }

  lemma RequestTaken(s: MonitorState, request: PendingRequest, from: ClientId, appServerId: string, now: int)
    ensures var id := NextRequestId(s.requestSequence + 1, now);
            var table := WithRequest(s, request, from, appServerId, now).pendingRequests;
            && id in table && table[id].request == request.(id := id, createdAt := now)
            && (forall key :: NamesThread(table, key, request.threadId) && key != id ==>
                NamesThread(s.pendingRequests, key, request.threadId))
            && NamesThread(table, id, request.threadId)
  {
    hide NextRequestId;
  }

  /** An approval is waited for as an approval, an input as an input. */
  predicate ShowsKind(t: Thread, kind: RequestKind) {
    && (kind == Approval <==> t.state == WaitingApproval)
    && (kind == Input <==> t.state == WaitingInput)
  }

  /** A thread shows the only request that names it. */
  lemma OnlyRequest(t: Thread, table: RequestTable, key: string)
    requires ShowsRequest(t, table) && NamesThread(table, key, t.id)
    ensures t.requestId in table && (t.state == WaitingApproval || t.state == WaitingInput)
    ensures (forall other :: NamesThread(table, other, t.id) ==> other == key) ==>
              t.requestId == key && ShowsKind(t, table[key].request.kind)
                  && t.turnId == table[key].request.turnId
  {
    assert t.id in RequestThreads(table);
  }

  /** A new request is shown: its thread waits as its kind says, and bears this very request if it had none before. */
  lemma RequestIsShown(s: MonitorState, request: PendingRequest, from: ClientId, appServerId: string, now: int,
                       s': MonitorState)
    requires Inv(s) && Next(s, ServerRequest(request, from, appServerId), now, s')
    ensures request.threadId in Ids(s'.snapshot.threads)
    ensures forall t :: t in s'.snapshot.threads && t.id == request.threadId ==>
              && (t.state == WaitingApproval || t.state == WaitingInput) && t.requestId in s'.pendingRequests
              && ((forall key :: !NamesThread(s.pendingRequests, key, request.threadId)) ==>
                    && t.requestId == NextRequestId(s.requestSequence + 1, now)
                    && ShowsKind(t, request.kind) && t.turnId == request.turnId)
  {
    hide Inv, BaseInv, Rebuilt, NextRequestId, Next, Updated, WithRequest, ShowsRequest;
    Entered(s, ServerRequest(request, from, appServerId), now, s');
    MessageUpdates(s, now);
    var mid := WithRequest(s, request, from, appServerId, now);
    RequestTaken(s, request, from, appServerId, now);
    RebuiltRequests(mid, s', now);
    var id := NextRequestId(s.requestSequence + 1, now);
    assert NamesThread(mid.pendingRequests, id, request.threadId);
    assert request.threadId in RequestThreads(mid.pendingRequests);
    forall t | t in s'.snapshot.threads && t.id == request.threadId
      ensures (t.state == WaitingApproval || t.state == WaitingInput) && t.requestId in s'.pendingRequests
      ensures (forall key :: !NamesThread(s.pendingRequests, key, request.threadId)) ==>
                && t.requestId == id && ShowsKind(t, request.kind) && t.turnId == request.turnId
    {
      OnlyRequest(t, mid.pendingRequests, id);
    }
  }

  /** A thread no request names shows none, and no thread shows a request that is not there. */
  lemma NoRequest(t: Thread, table: RequestTable)
    requires ShowsRequest(t, table)
    ensures (forall key :: !NamesThread(table, key, t.id)) ==> t.requestId == ""
    ensures t.requestId != "" ==> NamesThread(table, t.requestId, t.id) && t.turnId == table[t.requestId].request.turnId
  {
  }

  /** An answered request is shown no more; if it was the only one of its thread, the thread bears none. */
  lemma AnswerIsShown(s: MonitorState, requestId: string, expected: PendingControl, now: int, s': MonitorState)
    requires Inv(s) && Next(s, Finish(requestId, expected), now, s')
    requires requestId in s.pendingRequests && s.pendingRequests[requestId] == expected
    ensures s'.pendingRequests == s.pendingRequests - {requestId}
    ensures forall t :: t in s'.snapshot.threads && t.requestId != "" ==> t.requestId != requestId
    ensures (forall key :: NamesThread(s.pendingRequests, key, expected.request.threadId) ==> key == requestId) ==>
              forall t :: t in s'.snapshot.threads && t.id == expected.request.threadId ==> t.requestId == ""
  {
    hide Inv, BaseInv, Rebuilt, Next, Updated, ShowsRequest;
    Entered(s, Finish(requestId, expected), now, s');
    RemovalUpdates(s, now);
    var mid := WithoutRequest(s, requestId, expected);
    RebuiltRequests(mid, s', now);
    assert forall key :: NamesThread(mid.pendingRequests, key, expected.request.threadId) ==>
             NamesThread(s.pendingRequests, key, expected.request.threadId) && key != requestId;
    forall t | t in s'.snapshot.threads
      ensures t.requestId != "" ==> t.requestId in mid.pendingRequests
      ensures (forall key :: !NamesThread(mid.pendingRequests, key, t.id)) ==> t.requestId == ""
    {
      NoRequest(t, mid.pendingRequests);
    }
  }

  /** A lost connection takes its requests along: no thread shows one, and the others stay. */
  lemma LossIsShown(s: MonitorState, lost: ClientId, now: int, s': MonitorState)
    requires Inv(s) && Next(s, Step.ClearClient(lost), now, s')
    ensures forall key :: key in s'.pendingRequests <==>
            key in s.pendingRequests && s.pendingRequests[key].client != lost
    ensures forall t :: t in s'.snapshot.threads && t.requestId != "" ==>
              t.requestId in s.pendingRequests && s.pendingRequests[t.requestId].client != lost
    ensures s'.client != Some(lost)
  {
    hide Inv, BaseInv, Rebuilt, Next, Updated, ShowsRequest;
    Entered(s, Step.ClearClient(lost), now, s');
    RemovalUpdates(s, now);
    var mid := WithoutClient(s, lost);
    RebuiltRequests(mid, s', now);
    RebuiltClient(mid, s', now);
    forall t | t in s'.snapshot.threads && t.requestId != "" ensures t.requestId in mid.pendingRequests {
      NoRequest(t, mid.pendingRequests);
    }
  }

  /** A resolved request is gone, whichever connection it came from; no thread shows it, and the others stay. */
  lemma ResolvedIsShown(s: MonitorState, appServerId: string, now: int, s': MonitorState)
    requires Inv(s) && Next(s, Resolved(appServerId), now, s')
    ensures forall key :: key in s'.pendingRequests <==>
            key in s.pendingRequests && s.pendingRequests[key].appServerId != appServerId
    ensures forall key :: key in s'.pendingRequests ==> s'.pendingRequests[key] == s.pendingRequests[key]
    ensures forall t :: t in s'.snapshot.threads && t.requestId != "" ==>
              t.requestId in s.pendingRequests && s.pendingRequests[t.requestId].appServerId != appServerId
  {
    hide Inv, BaseInv, Rebuilt, Next, Updated, ShowsRequest;
    Entered(s, Resolved(appServerId), now, s');
    RemovalUpdates(s, now);
    var mid := WithoutResolved(s, appServerId);
    RebuiltRequests(mid, s', now);
    forall t | t in s'.snapshot.threads && t.requestId != "" ensures t.requestId in mid.pendingRequests {
      NoRequest(t, mid.pendingRequests);
    }
  }

  lemma RebuiltClient(s: MonitorState, s': MonitorState, now: int)
    requires Rebuilt(s, s', now)
    ensures s'.client == s.client
  {
    hide RebuiltSnapshot, ComposeThreads, Lists, Enumerates, IsChoice, Events, AppendAll, Normalize, LiveHooks;
  }

  /** An accepted interrupt removes the requests of its turn and no others, and no thread shows one of them any more. */
  lemma InterruptedRequestsAreGone(s: MonitorState, threadId: string, turnId: string, now: int, s': MonitorState)
    requires Inv(s) && Next(s, Step.Interrupt(threadId, turnId), now, s')
    ensures forall key :: key in s'.pendingRequests <==>
            key in s.pendingRequests
            && !(s.pendingRequests[key].request.threadId == threadId && s.pendingRequests[key].request.turnId == turnId)
    ensures forall t :: t in s'.snapshot.threads && t.id == threadId && t.requestId != "" ==> t.turnId != turnId
  {
    hide Inv, BaseInv, Rebuilt, Next, Updated, ShowsRequest, InterruptThread;
    Entered(s, Step.Interrupt(threadId, turnId), now, s');
    RemovalUpdates(s, now);
    var mid := WithInterrupt(s, threadId, turnId, now);
    RebuiltRequests(mid, s', now);
    forall t | t in s'.snapshot.threads && t.id == threadId && t.requestId != "" ensures t.turnId != turnId {
      NoRequest(t, mid.pendingRequests);
    }
  }

  /** It idles the thread, with its turn interrupted, unless a hook or a request of another turn still speaks for it. */
  lemma InterruptIsShown(s: MonitorState, threadId: string, turnId: string, now: int, s': MonitorState)
      returns (t: Thread)
    requires Next(s, Step.Interrupt(threadId, turnId), now, s')
    requires threadId in Ids(s.appThreads) && threadId !in LiveHooks(s.cfg.hooks, s.hookSessions, now)
    requires forall key :: NamesThread(s.pendingRequests, key, threadId) ==>
             s.pendingRequests[key].request.turnId == turnId
    ensures t in s'.snapshot.threads && t.id == threadId
    ensures forall u :: u in s'.snapshot.threads && u.id == threadId ==> u == t
    ensures t.state == Idle && t.lastTurnStatus == Interrupted && t.turnId == turnId
    ensures t.stateSource == AppServerControl && t.stateConfidence == Exact && t.updatedAt == now
  {
    hide Rebuilt, LiveHooks, Next, Updated, Enabled, WithInterrupt, LastKnownState, LastKnown, FilesystemAt;
    Entered(s, Step.Interrupt(threadId, turnId), now, s');
    RemovalUpdates(s, now);
    var mid := WithInterrupt(s, threadId, turnId, now);
    InterruptTaken(s, threadId, turnId, now);
    LastKnownIsLast(mid.appThreads, threadId);
    t := RebuiltThread(mid, s', now, threadId);
  }

  /** An entry an interrupt has written to. */
  predicate TookInterrupt(t: Thread, was: Thread, turnId: string, now: int) {
    && KeptTheRest(t, was)
    && t.turnId == turnId && t.lastTurnStatus == Interrupted && t.state == Idle
    && t.stateSource == AppServerControl && t.stateConfidence == Exact && t.updatedAt == now
  }

  lemma InterruptTaken(s: MonitorState, threadId: string, turnId: string, now: int)
    requires threadId in Ids(s.appThreads)
    requires forall key :: NamesThread(s.pendingRequests, key, threadId) ==>
             s.pendingRequests[key].request.turnId == turnId
    ensures var s' := WithInterrupt(s, threadId, turnId, now);
            && s'.cfg == s.cfg && s'.hookSessions == s.hookSessions && threadId !in RequestThreads(s'.pendingRequests)
            && |s'.appThreads| == |s.appThreads| && threadId in Ids(s'.appThreads)
            && (forall i :: 0 <= i < |s'.appThreads| && s'.appThreads[i].id == threadId ==>
                  TookInterrupt(s'.appThreads[i], s.appThreads[i], turnId, now))
            && (forall i :: 0 <= i < |s.appThreads| && s.appThreads[i].id != threadId ==>
                  s'.appThreads[i] == s.appThreads[i])
  {
    var app := WithInterrupt(s, threadId, turnId, now).appThreads;
    var t :| t in s.appThreads && t.id == threadId;
    var i :| 0 <= i < |s.appThreads| && s.appThreads[i] == t;
    assert app[i] in app && app[i].id == threadId;
  }

  // ---- Hooks ----

  /** An observation counts from the moment it is received: its thread is shown in its state unless a request is
      pending. */
  lemma HookIsShown(s: MonitorState, session: string, o: HookObservation, now: int, s': MonitorState)
    requires session !in RequestThreads(s.pendingRequests)
    requires Next(s, Hook(session, Some(o)), now, s')
    ensures Shows(s', session, o.state)
    ensures s'.snapshot.hooks.receivedEvents == s.snapshot.hooks.receivedEvents + 1
    ensures s'.snapshot.hooks.lastEventAt == Some(now)
  {
    hide Rebuilt, LiveHooks, Shows, Next, Updated, Enabled, WithHook, RequestThreads;
    Entered(s, Hook(session, Some(o)), now, s');
    MessageUpdates(s, now);
    var mid := WithHook(s, session, Some(o), now);
    HookTaken(s, session, o, now);
    RebuiltShows(mid, s', now, session);
    RebuiltCount(mid, s', now);
  }

  lemma HookTaken(s: MonitorState, session: string, o: HookObservation, now: int)
    ensures var s' := WithHook(s, session, Some(o), now);
            && s'.pendingRequests == s.pendingRequests
            && session in LiveHooks(s'.cfg.hooks, s'.hookSessions, now) && s'.hookSessions[session].state == o.state
            && s'.snapshot.hooks.receivedEvents == s.snapshot.hooks.receivedEvents + 1
            && s'.snapshot.hooks.lastEventAt == Some(now)
  {
    var s' := WithHook(s, session, Some(o), now);
    assert !Expired(s'.cfg.hooks, s'.hookSessions[session], now);
  }

  lemma RebuiltCount(s: MonitorState, s': MonitorState, now: int)
    requires Rebuilt(s, s', now)
    ensures s'.snapshot.hooks.receivedEvents == s.snapshot.hooks.receivedEvents
    ensures s'.snapshot.hooks.lastEventAt == s.snapshot.hooks.lastEventAt
  {
    hide RebuiltWith;
    var uptime, choice, threads, requests :| RebuiltWith(s, s', now, uptime, choice, threads, requests);
    RebuiltFields(s, s', now, uptime, choice, threads, requests);
  }

  /** An event that maps to no state is counted, and leaves every session as it was. */
  lemma OtherHookIsCounted(s: MonitorState, session: string, now: int, s': MonitorState)
    requires Next(s, Hook(session, None), now, s')
    ensures s'.snapshot.hooks.receivedEvents == s.snapshot.hooks.receivedEvents + 1
    ensures s'.snapshot.hooks.lastEventAt == Some(now)
    ensures s'.hookSessions == LiveHooks(s.cfg.hooks, s.hookSessions, now)
    ensures s'.appThreads == s.appThreads && s'.pendingRequests == s.pendingRequests
  {
    hide Rebuilt, LiveHooks, Next, Updated, Enabled;
    Entered(s, Hook(session, None), now, s');
    MessageUpdates(s, now);
    hide RebuiltWith;
    var mid := WithHook(s, session, None, now);
    RebuiltCount(mid, s', now);
    RebuiltInputs(mid, s', now);
  }

  lemma RebuiltInputs(s: MonitorState, s': MonitorState, now: int)
    requires Rebuilt(s, s', now)
    ensures s'.appThreads == s.appThreads && s'.fsThreads == s.fsThreads
    ensures s'.pendingRequests == s.pendingRequests && s'.hookSessions == LiveHooks(s.cfg.hooks, s.hookSessions, now)
  {
    hide RebuiltWith, LiveHooks;
    var uptime, choice, threads, requests :| RebuiltWith(s, s', now, uptime, choice, threads, requests);
    RebuiltFields(s, s', now, uptime, choice, threads, requests);
  }

  // ---- What is reported of it ----

  lemma ReadyWithThreads(s: MonitorState)
    requires Inv(s) && s.snapshot.threads != []
    ensures s.eventsReady
  {
    hide LogTells, FromSources, TableInv, RequestsAgree, Synced, ListAgrees, UniqueIds;
  }

  /** A thread that is shown in another state or with another request than before has a new event that says so, unless
      the change is silent. */
  lemma AnyChangeIsReported(s: MonitorState, step: Step, now: int, s': MonitorState, t: Thread) returns (k: nat)
    requires Inv(s) && Next(s, step, now, s') && t in s'.snapshot.threads
    requires (s.eventsReady && !step.AccountResult?) || MonitorTheorems.IsMessage(step)
    requires !Unchanged(ById(s.snapshot.threads), t) && !Silent(ById(s.snapshot.threads), t)
    ensures |s.log| <= k < |s'.log|
    ensures Describes(s'.log[k], t) && KindFits(s'.log[k], t.lastTurnStatus)
    ensures s'.log[k].fromState == PreviousState(ById(s.snapshot.threads), t.id)
  {
    hide Inv, Next, KindFits, Describes, UniqueIds, MonitorTheorems.Told, Unchanged, Silent;
    MonitorTheorems.StepReportsItsChanges(s, step, now, s');
    StepKeepsInv(s, step, now, s');
    MonitorTheorems.ShownOnce(s');
    MonitorTheorems.ShownThread(s'.snapshot.threads, t);
    hide ById;
    assert MonitorTheorems.Told(|s.log|, s'.log, t.id);
    k := ToldAt(|s.log|, s'.log, t.id);
  }

  /** A thread that is shown in another state than before has a new event that says so, unless it now is in no known
      state, or is idle without having been active and without its turn having been interrupted or failed. */
  lemma ChangeIsReported(s: MonitorState, step: Step, now: int, s': MonitorState, u: Thread, t: Thread)
      returns (k: nat)
    requires Inv(s) && Next(s, step, now, s') && !step.AccountResult?
    requires u in s.snapshot.threads && t in s'.snapshot.threads && u.id == t.id && u.state != t.state
    requires t.state != Unknown && t.state != NoState
    requires t.state == Idle && t.lastTurnStatus != Interrupted && t.lastTurnStatus != Failed ==>
               u.state == Running || u.state == WaitingApproval || u.state == WaitingInput
    ensures |s.log| <= k < |s'.log|
    ensures Describes(s'.log[k], t) && KindFits(s'.log[k], t.lastTurnStatus) && s'.log[k].fromState == u.state
  {
    hide Inv, Next, KindFits, Describes, UniqueIds;
    ReadyWithThreads(s);
    MonitorTheorems.ShownOnce(s);
    MonitorTheorems.ShownThread(s.snapshot.threads, u);
    hide ById;
    k := AnyChangeIsReported(s, step, now, s', t);
  }

  lemma ToldAt(start: nat, log: seq<TaskEvent>, id: string) returns (k: nat)
    requires MonitorTheorems.Told(start, log, id)
    ensures start <= k < |log| && log[k].threadId == id
  {
    k :| start <= k < |log| && log[k].threadId == id;
  }

  /** An accepted interrupt of a thread that was not idle is reported as one, if it idles the thread. */
  lemma InterruptIsReported(s: MonitorState, threadId: string, turnId: string, now: int, s': MonitorState, u: Thread)
      returns (k: nat)
    requires Inv(s) && Next(s, Step.Interrupt(threadId, turnId), now, s')
    requires threadId in Ids(s.appThreads) && threadId !in LiveHooks(s.cfg.hooks, s.hookSessions, now)
    requires forall key :: NamesThread(s.pendingRequests, key, threadId) ==>
             s.pendingRequests[key].request.turnId == turnId
    requires u in s.snapshot.threads && u.id == threadId && u.state != Idle
    ensures |s.log| <= k < |s'.log|
    ensures s'.log[k].threadId == threadId && s'.log[k].turnId == turnId && s'.log[k].kind == TaskInterrupted
    ensures s'.log[k].fromState == u.state && s'.log[k].toState == Idle
  {
    hide Inv, Next, LiveHooks, Ids;
    var t := InterruptIsShown(s, threadId, turnId, now, s');
    k := ChangeIsReported(s, Step.Interrupt(threadId, turnId), now, s', u, t);
  }

  /** A turn message that changes the state shown of a thread is reported as what became of the turn. */
  lemma TurnIsReported(s: MonitorState, threadId: string, turnId: string, status: TurnStatus, started: bool, now: int,
                       s': MonitorState, u: Thread)
      returns (k: nat)
    requires Inv(s) && Next(s, TurnChanged(threadId, turnId, status, started), now, s')
    requires forall j :: IndexOf(s.appThreads, threadId) < j < |s.appThreads| ==> s.appThreads[j].id != threadId
    requires Unobscured(s, threadId, now) && u in s.snapshot.threads && u.id == threadId
    requires if started || status == InProgress then u.state != Running
             else if status == Failed then u.state != Error
             else if status == Interrupted then u.state != Idle
             else u.state == Running || u.state == WaitingApproval || u.state == WaitingInput
    ensures |s.log| <= k < |s'.log| && s'.log[k].threadId == threadId && s'.log[k].turnId == turnId
    ensures s'.log[k].fromState == u.state
    ensures var kind := s'.log[k].kind;
            if started || status == InProgress then
              kind == if u.state == Idle || u.state == WaitingApproval || u.state == WaitingInput then TaskResumed
                  else TaskStarted
            else kind == match status
                         case Failed => TaskFailed
                         case Interrupted => TaskInterrupted
                         case _ => TaskCompleted
  {
    hide Inv, Next, Unobscured;
    assert NoneKnownFrom(s.appThreads, IndexOf(s.appThreads, threadId) + 1, threadId);
    hide NoneKnownFrom, IndexOf;
    var t := TurnIsShown(s, threadId, turnId, status, started, now, s');
    k := ChangeIsReported(s, TurnChanged(threadId, turnId, status, started), now, s', u, t);
  }

  lemma ShownRequests(s: MonitorState)
    requires Inv(s)
    ensures forall t :: t in s.snapshot.threads ==> ShowsRequest(t, s.pendingRequests)
    ensures "" !in s.pendingRequests
  {
    hide FromSources, LogInv, ListAgrees, UniqueIds, Synced, ShowsRequest;
  }

  /** No thread was shown with the request of a thread no request named. */
  lemma NewlyBorne(s: MonitorState, t: Thread)
    requires Inv(s) && t.requestId != "" && forall key :: !NamesThread(s.pendingRequests, key, t.id)
    ensures !Unchanged(ById(s.snapshot.threads), t)
  {
    hide Inv, ShowsRequest;
    ShownRequests(s);
    ByIdKeys(s.snapshot.threads);
    if t.id in ById(s.snapshot.threads) {
      NoRequest(ById(s.snapshot.threads)[t.id], s.pendingRequests);
    }
  }

  /** The first request on a thread is reported, as an approval or an input that is required. */
  lemma RequestIsReported(s: MonitorState, request: PendingRequest, from: ClientId, appServerId: string, now: int,
                          s': MonitorState)
      returns (k: nat)
    requires Inv(s) && Next(s, ServerRequest(request, from, appServerId), now, s')
    requires forall key :: !NamesThread(s.pendingRequests, key, request.threadId)
    ensures |s.log| <= k < |s'.log| && s'.log[k].threadId == request.threadId && s'.log[k].turnId == request.turnId
    ensures s'.log[k].requestId == NextRequestId(s.requestSequence + 1, now)
    ensures s'.log[k].kind == match request.kind case Approval => ApprovalRequired case Input => InputRequired
  {
    hide Inv, Next, NextRequestId, ShowsRequest, RequestThreads, UniqueIds;
    var step := ServerRequest(request, from, appServerId);
    RequestIsShown(s, request, from, appServerId, now, s');
    StepKeepsInv(s, step, now, s');
    var t :| t in s'.snapshot.threads && t.id == request.threadId;
    ShownRequests(s);
    ShownRequests(s');
    assert ShowsRequest(t, s'.pendingRequests);
    NoRequest(t, s'.pendingRequests);
    NewlyBorne(s, t);
    hide ById, Unchanged, Silent;
    k := AnyChangeIsReported(s, step, now, s', t);
  }
}
