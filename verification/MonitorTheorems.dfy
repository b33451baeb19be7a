/** Theorems over all runs of the agent: the log as a faithful view, quiescence, fresh snapshots. */
module MonitorTheorems {
  import opened Wrappers
  import opened Model
  import opened Sorting
  import opened Hooks
  import opened Hierarchy
  import opened Decorate
  import opened Transitions
  import opened Stream
  import opened MonitorState
  import opened MonitorProofs

  // ---- The log as a view of the state ----

  lemma ShownThread(threads: seq<Thread>, t: Thread)
    requires UniqueIds(threads) && t in threads
    ensures t.id in ById(threads) && ById(threads)[t.id] == t
  {
    EnumeratesById(threads, ById(threads));
  }

  /** The recovery event is declared and documented, but no run emits it. */
  lemma AgentNeverReportsRecovery(states: seq<MonitorState>, steps: seq<Step>, times: seq<int>, i: nat, k: nat)
    requires Run(states, steps, times) && i < |states| && k < |states[i].log|
    ensures states[i].log[k].kind != AgentRecovered
  {
    InvAlways(states, steps, times, i);
  }

  /** No run ever reports an idle workload, because visibility is never shared: at every lock release the summary is the
      unshared one of the list beside it. */
  lemma WorkloadIsNeverIdle(states: seq<MonitorState>, steps: seq<Step>, times: seq<int>, i: nat)
    requires Run(states, steps, times) && i < |states|
    ensures states[i].snapshot.summary == SummaryOf(states[i].snapshot.threads, false)
    ensures states[i].snapshot.summary.workloadState == PriorityState(TallyAll(states[i].snapshot.threads)) != Idle
  {
    InvAlways(states, steps, times, i);
    hide BaseInv, RequestsAgree, Synced, Run, SummaryOf, TallyAll, PriorityState, HasTrueRoots;
    WorkloadByPriority(states[i].snapshot.threads);
  }

  /** At every lock release the workflows shown are at least the trees that hold an active thread and at most the active
      workers; they are those trees if and only if no tree holds two active threads that enter its cycle at different
      threads, and so whenever no thread shown is on a cycle but with itself. */
  lemma WorkflowsShownAreTrees(states: seq<MonitorState>, steps: seq<Step>, times: seq<int>, i: nat)
    requires Run(states, steps, times) && i < |states|
    ensures var shown := states[i].snapshot;
            var p := ParentsOf(shown.threads);
            && |ActiveTrees(p, shown.threads)| <= shown.summary.activeWorkflows <= shown.summary.activeWorkers
            && (shown.summary.activeWorkflows == |ActiveTrees(p, shown.threads)| <==> OneEntryPerTree(p, shown.threads))
            && (OnlySelfParents(p) ==> shown.summary.activeWorkflows == |ActiveTrees(p, shown.threads)|)
  {
    InvAlways(states, steps, times, i);
    hide BaseInv, RequestsAgree, Synced, Run, SummaryOf, HasTrueRoots, ParentsOf;
    WorkflowsAreTrees(states[i].snapshot.threads);
  }

  /** At every lock release a thread is shown as a root exactly when it names no parent, and the root shown with it
      is the top of its chain of parents, or the thread where the chain enters a cycle. */
  lemma HierarchyIsShown(states: seq<MonitorState>, steps: seq<Step>, times: seq<int>, i: nat, t: Thread)
    requires Run(states, steps, times) && i < |states| && t in states[i].snapshot.threads
    ensures t.threadRole == if t.parentThreadId == "" then RootRole else Subagent
    ensures var p, x := ParentsOf(states[i].snapshot.threads), RootKey(t);
            IsTop(p, t.id, x) || IsEntry(p, t.id, x)
  {
    InvAlways(states, steps, times, i);
    hide BaseInv, RequestsAgree, Synced, Run, SummaryOf, ParentsOf, RootKey;
    RootExactly(ParentsOf(states[i].snapshot.threads), t.id, RootKey(t));
  }

  lemma {:induction false} AppendedEvent(log: seq<TaskEvent>, events: seq<TaskEvent>, k: nat)
    requires k < |events|
    ensures AppendAll(log, events)[|log| + k] == events[k].(sequence := |log| + k + 1)
  {
    if k < |events| - 1 {
      AppendedEvent(log, events[..|events| - 1], k);
    }
  }

  ghost predicate TellsChange(e: TaskEvent, before: map<string, Thread>, after: map<string, Thread>) {
    && e.threadId in after && !Unchanged(before, after[e.threadId]) && !Silent(before, after[e.threadId])
    && e.fromState == (if e.threadId in before then before[e.threadId].state else NoState)
    && Describes(e, after[e.threadId]) && KindFits(e, after[e.threadId].lastTurnStatus)
  }

  lemma EventTellsChange(log: seq<TaskEvent>, last: map<string, Thread>, threads: seq<Thread>, now: int, k: nat)
    requires UniqueIds(threads) && k < |Events(last, threads, now)|
    ensures var e := AppendAll(log, Events(last, threads, now))[|log| + k];
            e.threadId == Events(last, threads, now)[k].threadId && TellsChange(e, last, ById(threads))
  {
    var events := Events(last, threads, now);
    AppendedEvent(log, events, k);
    assert events[k] in events;
    var i := EventIsChange(last, threads, now, events[k]);
    EventIsDue(last, threads[i], now);
    ShownThread(threads, threads[i]);
  }

  /** The entries of a log from some point on are one real change each, no two of the same thread. */
  ghost predicate NewEventsTellChanges(start: nat, log: seq<TaskEvent>, before: map<string, Thread>,
                                       after: map<string, Thread>) {
    && (forall k :: start <= k < |log| ==> TellsChange(log[k], before, after))
    && (forall j, k :: start <= j < k < |log| ==> log[j].threadId != log[k].threadId)
  }

  predicate Told(start: nat, log: seq<TaskEvent>, id: string) {
    exists k :: start <= k < |log| && log[k].threadId == id
  }

  /** No change is missing that is not silent. */
  ghost predicate NoChangeUntold(start: nat, log: seq<TaskEvent>, before: map<string, Thread>,
                                 after: map<string, Thread>) {
    forall id :: id in after && !Unchanged(before, after[id]) && !Silent(before, after[id]) ==> Told(start, log, id)
  }

  lemma RebuildReportsItsChanges(log: seq<TaskEvent>, last: map<string, Thread>, threads: seq<Thread>, now: int)
    requires UniqueIds(threads)
    ensures NewEventsTellChanges(|log|, AppendAll(log, Events(last, threads, now)), last, ById(threads))
  {
    hide TellsChange, Events, UniqueIds, AppendAll, ById;
    var after := AppendAll(log, Events(last, threads, now));
    OneEventPerThread(last, threads, now);
    forall k | |log| <= k < |after| ensures TellsChange(after[k], last, ById(threads)) {
      EventTellsChange(log, last, threads, now, k - |log|);
    }
    forall j, k | |log| <= j < k < |after| ensures after[j].threadId != after[k].threadId {
      EventTellsChange(log, last, threads, now, j - |log|);
      EventTellsChange(log, last, threads, now, k - |log|);
    }
  }

  lemma ChangeIsTold(log: seq<TaskEvent>, last: map<string, Thread>, threads: seq<Thread>, now: int, i: nat)
    requires i < |threads| && !Unchanged(last, threads[i]) && !Silent(last, threads[i])
    ensures Told(|log|, AppendAll(log, Events(last, threads, now)), threads[i].id)
  {
    EventIsDue(last, threads[i], now);
    EventIsTold(last, threads, now, i);
    hide Events, Unchanged, Silent, AppendAll;
    var events := Events(last, threads, now);
    var n :| 0 <= n < |events| && events[n] == TransitionEvent(last, threads[i], now).value;
    AppendedEvent(log, events, n);
    assert AppendAll(log, events)[|log| + n].threadId == threads[i].id;
  }

  /** Every change that is not silent has its event. */
  lemma RebuildTellsEveryChange(log: seq<TaskEvent>, last: map<string, Thread>, threads: seq<Thread>, now: int)
    requires UniqueIds(threads)
    ensures NoChangeUntold(|log|, AppendAll(log, Events(last, threads, now)), last, ById(threads))
  {
    EnumeratesById(threads, ById(threads));
    hide Events, Unchanged, Silent, AppendAll, ById, Told;
    forall id | id in ById(threads) && !Unchanged(last, ById(threads)[id]) && !Silent(last, ById(threads)[id])
      ensures Told(|log|, AppendAll(log, Events(last, threads, now)), id)
    {
      var i :| 0 <= i < |threads| && threads[i] == ById(threads)[id];
      ChangeIsTold(log, last, threads, now, i);
    }
  }

  lemma RebuiltReports(s: MonitorState, s': MonitorState, now: int)
    requires Rebuilt(s, s', now)
    ensures |s.log| <= |s'.log| && s'.log[..|s.log|] == s.log
    ensures NewEventsTellChanges(|s.log|, s'.log, s.lastThreads, ById(s'.snapshot.threads))
    ensures s.eventsReady ==> NoChangeUntold(|s.log|, s'.log, s.lastThreads, ById(s'.snapshot.threads))
  {
    hide AfterRebuild, ComposeThreads, TellsChange, Events, Lists, LiveHooks, ById, NoChangeUntold;
    var uptime, choice, threads, requests :| RebuiltWith(s, s', now, uptime, choice, threads, requests);
    RebuiltFields(s, s', now, uptime, choice, threads, requests);
    if s.eventsReady {
      RebuildReportsItsChanges(s.log, s.lastThreads, threads, now);
      RebuildTellsEveryChange(s.log, s.lastThreads, threads, now);
    }
  }

  /** The live messages: what they change is told even if nothing was compared before. */
  predicate IsMessage(step: Step) {
    step.StatusChanged? || step.TurnChanged? || step.ServerRequest? || step.Hook?
  }

  lemma MessageReadies(s: MonitorState, step: Step, now: int)
    ensures IsMessage(step) ==> Updated(s, step, now).eventsReady
  {
    if IsMessage(step) {
      assert PrepareLive(s).eventsReady;
      MessageUpdates(s, now);
      hide Updated, PrepareLive, IndexOf, ReplaceState, TakeTurn, NextRequestId;
    }
  }

  /** Each critical section only appends to the log, at most once for a thread, every event it appends tells a real
      change between the two lists shown, and no change is left out that is not silent, once there is a baseline or
      if a live message made it. */
  lemma StepReportsItsChanges(s: MonitorState, step: Step, now: int, s': MonitorState)
    requires Inv(s) && Next(s, step, now, s')
    ensures |s.log| <= |s'.log| && s'.log[..|s.log|] == s.log
    ensures NewEventsTellChanges(|s.log|, s'.log, ById(s.snapshot.threads), ById(s'.snapshot.threads))
    ensures (s.eventsReady && !step.AccountResult?) || IsMessage(step) ==>
            NoChangeUntold(|s.log|, s'.log, ById(s.snapshot.threads), ById(s'.snapshot.threads))
  {
    hide Updated, Rebuilt, BaseInv, RequestsAgree, Synced, TellsChange, ById, NoChangeUntold;
    SectionKeepsStream(s, step, now);
    MessageReadies(s, step, now);
    if !step.AccountResult? {
      RebuiltReports(Updated(s, step, now), s', now);
    }
  }

  ghost predicate SameStream(s: MonitorState, s': MonitorState) {
    && s'.log == s.log && s'.broadcast == s.broadcast && s'.lastThreads == s.lastThreads
    && (s.eventsReady ==> s'.eventsReady)
    && s'.streamReady == s.streamReady && s'.streamSignature == s.streamSignature
  }

  lemma PrepareKeepsStream(s: MonitorState)
    requires Inv(s)
    ensures SameStream(s, PrepareLive(s)) && SameFailures(s, PrepareLive(s))
  {
    hide LogTells, TableInv, FromSources, RequestsAgree, Synced;
    assert ById([]) == map[];
  }

  predicate SameFailures(s: MonitorState, s': MonitorState) {
    s'.snapshot.codex.consecutiveFailures == s.snapshot.codex.consecutiveFailures
  }

  predicate IsLoopStep(step: Step) {
    step.CollectFilesystem? || step.Dial? || step.DialFailed? || step.Connect? || step.AccountResult? || step.Refresh?
        || step.Disconnect?
  }

  lemma ConnectKeepsStream(s: MonitorState, client: ClientId, appServer: string, now: int)
    requires s.snapshot.codex.connection == Connecting
    ensures SameStream(s, WithClient(s, client, appServer, now))
            && SameFailures(s, WithClient(s, client, appServer, now))
  {
  }

  lemma LoopSectionKeepsStream(s: MonitorState, step: Step, now: int)
    requires Inv(s) && Enabled(s, step) && IsLoopStep(step)
    ensures SameStream(s, Updated(s, step, now))
    ensures !step.AccountResult? ==> SameFailures(s, Updated(s, step, now))
  {
    hide BaseInv, RequestsAgree, Synced, ListAgrees, WithClient;
    if step.Connect? {
      DialingConnects(s);
      ConnectKeepsStream(s, step.newClient, step.appServer, now);
    }
  }

  lemma DialingConnects(s: MonitorState)
    requires BaseInv(s)
    ensures s.phase == Dialing ==> s.snapshot.codex.connection == Connecting
  {
  }

  lemma StreamChain(s: MonitorState, mid: MonitorState, s': MonitorState)
    requires SameStream(s, mid) && SameStream(mid, s') && SameFailures(s, mid) && SameFailures(mid, s')
    ensures SameStream(s, s') && SameFailures(s, s')
  {
  }

  lemma ThreadUpdatesKeepStream(s: MonitorState, step: Step, now: int)
    requires step.StatusChanged? || step.TurnChanged?
    ensures SameStream(PrepareLive(s), Updated(s, step, now)) && SameFailures(PrepareLive(s), Updated(s, step, now))
  {
    hide PrepareLive, IndexOf, TakeTurn, ReplaceState;
  }

  lemma RequestUpdateKeepsStream(s: MonitorState, r: PendingRequest, from: ClientId, appServerId: string, now: int)
    ensures SameStream(PrepareLive(s), WithRequest(s, r, from, appServerId, now))
    ensures SameFailures(PrepareLive(s), WithRequest(s, r, from, appServerId, now))
  {
    hide PrepareLive, NextRequestId;
  }

  lemma HookUpdateKeepsStream(s: MonitorState, session: string, o: Option<HookObservation>, now: int)
    ensures SameStream(PrepareLive(s), WithHook(s, session, o, now))
            && SameFailures(PrepareLive(s), WithHook(s, session, o, now))
  {
    hide PrepareLive;
  }

  lemma MessageSectionKeepsStream(s: MonitorState, step: Step, now: int)
    requires Inv(s) && IsMessage(step)
    ensures SameStream(s, Updated(s, step, now)) && SameFailures(s, Updated(s, step, now))
  {
    hide Inv, PrepareLive, Updated, WithRequest, WithHook, SameStream, SameFailures;
    PrepareKeepsStream(s);
    MessageUpdates(s, now);
    match step {
      case ServerRequest(r, from, appServerId) => RequestUpdateKeepsStream(s, r, from, appServerId, now);
      case Hook(session, o) => HookUpdateKeepsStream(s, session, o, now);
      case _ => ThreadUpdatesKeepStream(s, step, now);
    }
    StreamChain(s, PrepareLive(s), Updated(s, step, now));
  }

  /** Before its rebuild a critical section emits nothing. */
  lemma SectionKeepsStream(s: MonitorState, step: Step, now: int)
    requires Inv(s) && Enabled(s, step)
    ensures SameStream(s, Updated(s, step, now))
    ensures !step.AccountResult? ==> SameFailures(s, Updated(s, step, now))
  {
    if IsLoopStep(step) {
      LoopSectionKeepsStream(s, step, now);
    } else if IsMessage(step) {
      MessageSectionKeepsStream(s, step, now);
    } else {
      hide Inv, WithStatus, WithTurn, WithRequest, WithHook, WithClient, WithRefresh, WithAccountResult, WithConnection;
    }
  }

  // ---- The log as a faithful view ----

  /** The thread has held its state and request id at every lock release up to `i` since there was something to
      compare with. */
  ghost predicate HeldSinceBaseline(states: seq<MonitorState>, i: nat, t: Thread)
    requires i < |states|
  {
    forall k :: 0 <= k <= i && states[k].eventsReady ==> Holds(states[k].snapshot.threads, t)
  }

  /** The list shows the thread in this state, with this request. */
  predicate Holds(threads: seq<Thread>, t: Thread) {
    exists u :: u in threads && u.id == t.id && u.state == t.state && u.requestId == t.requestId
  }

  lemma {:induction false} NoEventOf(log: seq<TaskEvent>, id: string)
    ensures LatestEvent(log, id) == None <==> forall k :: 0 <= k < |log| ==> log[k].threadId != id
  {
    if log != [] {
      NoEventOf(log[..|log| - 1], id);
    }
  }

  /** Once there is something to compare with, there always is. */
  lemma StepKeepsReady(s: MonitorState, step: Step, now: int, s': MonitorState)
    requires Inv(s) && Next(s, step, now, s')
    ensures s.eventsReady ==> s'.eventsReady
    ensures !s.eventsReady && step.AccountResult? ==> !s'.eventsReady
    ensures step.AccountResult? ==> s'.snapshot.threads == s.snapshot.threads && s'.log == s.log
  {
    hide Inv, Rebuilt, BaseInv;
    if step.AccountResult? {
      hide Enabled;
    } else {
      hide Updated, Enabled;
      RebuildReadies(Updated(s, step, now), s', now);
    }
  }

  lemma RebuildReadies(s: MonitorState, s': MonitorState, now: int)
    requires Rebuilt(s, s', now)
    ensures s'.eventsReady
  {
    hide RebuiltWith;
    var uptime, choice, threads, requests :| RebuiltWith(s, s', now, uptime, choice, threads, requests);
    RebuiltFields(s, s', now, uptime, choice, threads, requests);
  }

  lemma {:induction false} ReadyStays(states: seq<MonitorState>, steps: seq<Step>, times: seq<int>, k: nat, i: nat)
    requires Run(states, steps, times) && k <= i < |states| && states[k].eventsReady
    ensures states[i].eventsReady
    decreases i
  {
    hide Inv, Next, Initial;
    if k < i {
      ReadyStays(states, steps, times, k, i - 1);
      InvAlways(states, steps, times, i - 1);
      StepKeepsReady(states[i - 1], steps[i - 1], times[i - 1], states[i]);
    }
  }

  lemma ShownOnce(s: MonitorState)
    requires Inv(s)
    ensures UniqueIds(s.snapshot.threads)
  {
  }

  lemma NotableIsNotSilent(last: map<string, Thread>, t: Thread)
    requires Notable(t.state)
    ensures !Silent(last, t)
  {
  }

  lemma NoEventBefore(log: seq<TaskEvent>, longer: seq<TaskEvent>, id: string)
    requires |log| <= |longer| && longer[..|log|] == log && LatestEvent(longer, id) == None
    ensures LatestEvent(log, id) == None && !Told(|log|, longer, id)
  {
    NoEventOf(log, id);
    NoEventOf(longer, id);
    forall k | 0 <= k < |log| ensures log[k].threadId != id {
      assert longer[..|log|][k] == longer[k];
    }
  }

  lemma UnchangedHolds(threads: seq<Thread>, t: Thread)
    requires Unchanged(ById(threads), t)
    ensures Holds(threads, t)
  {
    ByIdKeys(threads);
  }

  /** A notable thread without an event is shown as it was shown before the step. */
  lemma NoEventNoChange(s: MonitorState, step: Step, now: int, s': MonitorState, t: Thread)
    requires Inv(s) && Next(s, step, now, s') && s.eventsReady
    requires t in s'.snapshot.threads && Notable(t.state) && LatestEvent(s'.log, t.id) == None
    ensures Holds(s.snapshot.threads, t) && LatestEvent(s.log, t.id) == None
  {
    hide Inv, Next, NewEventsTellChanges, LatestEvent, Unchanged, Silent, Told, Notable;
    StepReportsItsChanges(s, step, now, s');
    StepKeepsReady(s, step, now, s');
    NoEventBefore(s.log, s'.log, t.id);
    if !step.AccountResult? {
      StepKeepsInv(s, step, now, s');
      ShownOnce(s');
      ShownThread(s'.snapshot.threads, t);
      NotableIsNotSilent(ById(s.snapshot.threads), t);
      UnchangedHolds(s.snapshot.threads, t);
    }
  }

  lemma {:induction false} UnreportedIsHeld(states: seq<MonitorState>, steps: seq<Step>, times: seq<int>, i: nat,
                                            t: Thread)
    requires Run(states, steps, times) && i < |states|
    requires t in states[i].snapshot.threads && Notable(t.state) && LatestEvent(states[i].log, t.id) == None
    ensures HeldSinceBaseline(states, i, t)
  {
    hide Inv, Next, Notable, LatestEvent;
    forall k | 0 <= k <= i && states[k].eventsReady ensures Holds(states[k].snapshot.threads, t) {
      if k < i {
        ReadyStays(states, steps, times, k, i - 1);
        InvAlways(states, steps, times, i - 1);
        NoEventNoChange(states[i - 1], steps[i - 1], times[i - 1], states[i], t);
        var u :| u in states[i - 1].snapshot.threads && u.id == t.id && u.state == t.state
            && u.requestId == t.requestId;
        UnreportedIsHeld(states, steps, times, i - 1, u);
      }
    }
  }

  /** At every lock release, each thread shown running, waiting or failed has a latest event that says exactly its
      state and request, or has held both at every lock release since the first comparison. */
  lemma LogIsFaithfulView(states: seq<MonitorState>, steps: seq<Step>, times: seq<int>, i: nat, t: Thread)
    requires Run(states, steps, times) && i < |states|
    requires t in states[i].snapshot.threads && Notable(t.state)
    ensures || Reported(states[i].log, t)
            || (AsInBaseline(states[i].log, states[i].baseline, t) && HeldSinceBaseline(states, i, t))
  {
    InvAlways(states, steps, times, i);
    ShownThread(states[i].snapshot.threads, t);
    hide Run, HeldSinceBaseline, LatestEvent;
    if LatestEvent(states[i].log, t.id) == None {
      UnreportedIsHeld(states, steps, times, i, t);
    }
  }

  // ---- Quiescence ----

  /** The lists shown are those of the inputs as they stand, with `choice` prevailing. */
  ghost predicate SettledBy(s: MonitorState, choice: map<string, PendingRequest>) {
    && s.eventsReady && IsChoice(choice, s.pendingRequests)
    && s.lastThreads == ComposeThreads(s.appThreads, s.fsThreads, s.hookSessions, choice)
  }

  lemma RebuildSettles(s: MonitorState, s': MonitorState, now: int) returns (choice: map<string, PendingRequest>)
    requires Rebuilt(s, s', now)
    ensures SettledBy(s', choice)
  {
    hide AfterRebuild, ComposeThreads, Lists, LiveHooks, IsChoice, ById;
    var uptime, c, threads, requests :| RebuiltWith(s, s', now, uptime, c, threads, requests);
    RebuiltFields(s, s', now, uptime, c, threads, requests);
    EnumeratesById(threads, ComposeThreads(s.appThreads, s.fsThreads, LiveHooks(s.cfg.hooks, s.hookSessions, now), c));
    choice := c;
  }

  /** Rebuilding from unchanged inputs reports nothing if no thread has two pending requests. */
  lemma QuietWhenForced(s: MonitorState, choice: map<string, PendingRequest>, s': MonitorState, now: int)
    requires SettledBy(s, choice) && AtMostOnePerThread(s.pendingRequests)
    requires LiveHooks(s.cfg.hooks, s.hookSessions, now) == s.hookSessions
    requires Rebuilt(s, s', now)
    ensures s'.log == s.log && s'.lastThreads == s.lastThreads
  {
    hide AfterRebuild, ComposeThreads, Lists, LiveHooks, IsChoice, AtMostOnePerThread;
    var uptime, c, threads, requests :| RebuiltWith(s, s', now, uptime, c, threads, requests);
    RebuiltFields(s, s', now, uptime, c, threads, requests);
    ChoiceIsForced(s.pendingRequests, choice, c);
    EnumeratesById(threads, s.lastThreads);
    NoChangeNoEvents(s.lastThreads, threads, now);
  }

  lemma {:induction false} SomeEnumeration(m: map<string, Thread>) returns (threads: seq<Thread>)
    requires forall id :: id in m ==> m[id].id == id
    ensures Enumerates(threads, m)
    decreases |m.Keys|
  {
    if m == map[] {
      threads := [];
    } else {
      var id :| id in m;
      var rest := m - {id};
      assert rest.Keys == m.Keys - {id};
      threads := SomeEnumeration(rest);
      threads := threads + [m[id]];
      forall other | other in m ensures m[other] in threads {
        if other != id {
          assert rest[other] in threads[..|threads| - 1];
        }
      }
    }
  }

  lemma {:induction false} SomeListing(table: RequestTable) returns (requests: seq<PendingRequest>)
    requires forall key :: key in table ==> table[key].request.id == key
    ensures Lists(requests, table)
    decreases |table.Keys|
  {
    if table == map[] {
      requests := [];
    } else {
      var key :| key in table;
      var rest := table - {key};
      assert rest.Keys == table.Keys - {key};
      var before := SomeListing(rest);
      OldestFirst(before);
      requests := Insert(CreationTime, table[key].request, before);
      InsertSorts(CreationTime, table[key].request, before);
      InsertKeepsDistinct(CreationTime, (r: PendingRequest) => r.id, table[key].request, before);
      forall r ensures r in requests <==> r == table[key].request || r in before {
        InsertMember(CreationTime, table[key].request, before, r);
      }
      OldestFirst(requests);
    }
  }

  /** A rebuild can always be carried out. */
  lemma RebuildIsPossible(s: MonitorState, now: int) returns (s': MonitorState)
    requires forall key :: key in s.pendingRequests ==> s.pendingRequests[key].request.id == key
    ensures Rebuilt(s, s', now)
  {
    hide AfterRebuild, ComposeThreads, LiveHooks, IsChoice;
    var live := LiveHooks(s.cfg.hooks, s.hookSessions, now);
    var choice := ChoiceExists(s.pendingRequests);
    var m := ComposeThreads(s.appThreads, s.fsThreads, live, choice);
    ComposedIds(s.appThreads, s.fsThreads, live, choice);
    forall id | id in m ensures m[id].id == id {
      ComposedThread(s.appThreads, s.fsThreads, live, choice, id);
    }
    var threads := SomeEnumeration(m);
    var requests := SomeListing(s.pendingRequests);
    s' := AfterRebuild(s, now, 0, threads, requests);
    assert RebuiltWith(s, s', now, 0, choice, threads, requests);
  }

  /** No enabled critical section is ever stuck: runs go on from every state they reach. */
  lemma EverySectionIsPossible(s: MonitorState, step: Step, now: int) returns (s': MonitorState)
    requires Inv(s) && Enabled(s, step)
    ensures Next(s, step, now, s') && Inv(s')
  {
    SectionKeepsBase(s, step, now);
    if step.AccountResult? {
      s' := Updated(s, step, now);
    } else {
      assert forall key :: key in Updated(s, step, now).pendingRequests ==>
             Updated(s, step, now).pendingRequests[key].request.id == key by {
        hide Updated, Enabled, RequestsAgree, Synced;
      }
      hide Updated, Enabled, Inv, BaseInv, Rebuilt;
      s' := RebuildIsPossible(Updated(s, step, now), now);
    }
    hide Inv, Updated, Rebuilt;
    StepKeepsInv(s, step, now, s');
  }

  /** A rebuild in which another request of the same thread prevails reports that thread again. */
  lemma OtherChoiceIsReported(last: map<string, Thread>, m: map<string, Thread>, threads: seq<Thread>, now: int,
                              id: string)
    requires Enumerates(threads, m) && id in m && id in last && last[id].requestId != m[id].requestId
    requires m[id].state == WaitingApproval || m[id].state == WaitingInput
    ensures Events(last, threads, now) != []
  {
    assert m[id] in threads && TransitionEvent(last, m[id], now).Some?;
    NoChangeNoEvents(last, threads, now);
  }

  /** With two pending requests on one thread, some iteration order makes the idle rebuild report an event. */
  lemma RestlessWhenOpen(s: MonitorState, choice: map<string, PendingRequest>, now: int, j: string, k: string)
      returns (s': MonitorState)
    requires SettledBy(s, choice) && TableInv(s.pendingRequests, s.requestSequence)
    requires j in s.pendingRequests && k in s.pendingRequests && j != k
    requires s.pendingRequests[j].request.threadId == s.pendingRequests[k].request.threadId
    ensures Rebuilt(s, s', now) && s'.log != s.log
  {
    var id := s.pendingRequests[j].request.threadId;
    var live := LiveHooks(s.cfg.hooks, s.hookSessions, now);
    assert s.pendingRequests[j].request.id == j && s.pendingRequests[k].request.id == k;
    hide AfterRebuild, ComposeThreads, LiveHooks, TableInv;
    assert id in RequestThreads(s.pendingRequests);
    ComposedThread(s.appThreads, s.fsThreads, s.hookSessions, choice, id);
    var other := if choice[id].id == j then k else j;
    var turned := ChoiceThrough(s.pendingRequests, other);
    ComposedThread(s.appThreads, s.fsThreads, live, turned, id);
    hide IsChoice;
    s' := RebuildUnder(s, turned, now, id);
  }

  lemma RebuildUnder(s: MonitorState, choice: map<string, PendingRequest>, now: int, id: string)
      returns (s': MonitorState)
    requires s.eventsReady && IsChoice(choice, s.pendingRequests)
    requires forall key :: key in s.pendingRequests ==> s.pendingRequests[key].request.id == key
    requires var m := ComposeThreads(s.appThreads, s.fsThreads, LiveHooks(s.cfg.hooks, s.hookSessions, now), choice);
             id in m && id in s.lastThreads && s.lastThreads[id].requestId != m[id].requestId
             && (m[id].state == WaitingApproval || m[id].state == WaitingInput)
    ensures Rebuilt(s, s', now) && s'.log != s.log
  {
    hide AfterRebuild, ComposeThreads, LiveHooks, IsChoice, Events;
    var live := LiveHooks(s.cfg.hooks, s.hookSessions, now);
    var m := ComposeThreads(s.appThreads, s.fsThreads, live, choice);
    ComposedIds(s.appThreads, s.fsThreads, live, choice);
    forall i | i in m ensures m[i].id == i {
      ComposedThread(s.appThreads, s.fsThreads, live, choice, i);
    }
    var threads := SomeEnumeration(m);
    var requests := SomeListing(s.pendingRequests);
    s' := AfterRebuild(s, now, 0, threads, requests);
    assert RebuiltWith(s, s', now, 0, choice, threads, requests);
    RebuiltFields(s, s', now, 0, choice, threads, requests);
    OtherChoiceIsReported(s.lastThreads, m, threads, now, id);
  }

  /** Rebuilding again with nothing changed is silent under every map order
      exactly when no thread has two pending requests. */
  lemma QuiescenceExactly(s: MonitorState, choice: map<string, PendingRequest>, now: int)
    requires SettledBy(s, choice) && TableInv(s.pendingRequests, s.requestSequence)
    requires LiveHooks(s.cfg.hooks, s.hookSessions, now) == s.hookSessions
    ensures (forall s' :: Rebuilt(s, s', now) ==> s'.log == s.log) <==> AtMostOnePerThread(s.pendingRequests)
  {
    hide Rebuilt, SettledBy, LiveHooks, TableInv;
    if AtMostOnePerThread(s.pendingRequests) {
      forall s' | Rebuilt(s, s', now) ensures s'.log == s.log {
        QuietWhenForced(s, choice, s', now);
      }
    } else {
      var j, k :| j in s.pendingRequests && k in s.pendingRequests && j != k
                  && s.pendingRequests[j].request.threadId == s.pendingRequests[k].request.threadId;
      var s' := RestlessWhenOpen(s, choice, now, j, k);
    }
  }

  /** The second of two rebuilds from the same inputs shows a snapshot of the same signature. */
  lemma RebuiltSnapshotIsStable(s0: MonitorState, now0: int, uptime0: int, s: MonitorState, now: int, uptime: int,
                                threads: seq<Thread>, requests: seq<PendingRequest>)
    requires s0.snapshot.codex.visibility != SharedAppServer
    requires s.snapshot == RebuiltSnapshot(s0, now0, uptime0, threads, requests)
    requires s.fsThreads == s0.fsThreads && s.usage == s0.usage && s.rateLimits == s0.rateLimits
    requires s.hookSessions == LiveHooks(s0.cfg.hooks, s0.hookSessions, now0) ==
             LiveHooks(s.cfg.hooks, s.hookSessions, now)
    requires s.snapshot.stale == IsStale(s, now)
    ensures Normalize(RebuiltSnapshot(s, now, uptime, threads, requests)) == Normalize(s.snapshot)
  {
    hide IsStale, LiveHooks, SummaryOf;
  }

  /** ... and when the lists and the stale flag come out the same as well, nothing is broadcast. */
  lemma IdleRebuildIsNotBroadcast(s0: MonitorState, s: MonitorState, now0: int, s': MonitorState, now: int)
    requires s0.snapshot.codex.visibility != SharedAppServer
    requires Rebuilt(s0, s, now0) && AtMostOnePerThread(s.pendingRequests)
    requires LiveHooks(s.cfg.hooks, s.hookSessions, now) == s.hookSessions
    requires Rebuilt(s, s', now)
    requires s'.snapshot.threads == s.snapshot.threads && s'.snapshot.pendingRequests == s.snapshot.pendingRequests
    requires s'.snapshot.stale == s.snapshot.stale
    ensures s'.broadcast == s.broadcast && s'.log == s.log
  {
    hide AfterRebuild, ComposeThreads, Lists, LiveHooks, IsChoice, AtMostOnePerThread, Enumerates, SettledBy,
         AppendAll, Events, ById, Normalize, IsStale, SummaryOf;
    var choice := RebuildSettles(s0, s, now0);
    QuietWhenForced(s, choice, s', now);
    var uptime0, c0, threads0, requests0 :| RebuiltWith(s0, s, now0, uptime0, c0, threads0, requests0);
    var uptime, c, threads, requests :| RebuiltWith(s, s', now, uptime, c, threads, requests);
    RebuiltFields(s0, s, now0, uptime0, c0, threads0, requests0);
    RebuiltFields(s, s', now, uptime, c, threads, requests);
    RebuiltSnapshotIsStable(s0, now0, uptime0, s, now, uptime, threads, requests);
  }

  // ---- Fresh snapshots ----

  lemma {:induction false} ActivitiesAreNoSnapshots(before: seq<StreamMessage>, events: seq<TaskEvent>)
    ensures LastSnapshot(before + Activities(events)) == LastSnapshot(before)
  {
    var all := before + Activities(events);
    if events == [] {
      assert all == before;
    } else {
      assert all[..|all| - 1] == before + Activities(events[..|events| - 1]);
      ActivitiesAreNoSnapshots(before, events[..|events| - 1]);
    }
  }

  /** What a subscriber has been shown that got `joined` when `k` messages had been broadcast, and every one since. */
  function ShownBy(broadcast: seq<StreamMessage>, k: nat, joined: Snapshot): Option<Snapshot>
    requires k <= |broadcast|
  {
    LastSnapshot([SnapshotMessage(joined)] + broadcast[k..])
  }

  function Shown(s: MonitorState, k: nat, joined: Snapshot): Option<Snapshot>
    requires k <= |s.broadcast|
  {
    ShownBy(s.broadcast, k, joined)
  }

  lemma ShownAfterEvents(broadcast: seq<StreamMessage>, k: nat, joined: Snapshot, events: seq<TaskEvent>)
    requires k <= |broadcast|
    ensures ShownBy(broadcast + Activities(events), k, joined) == ShownBy(broadcast, k, joined)
  {
    var seen := [SnapshotMessage(joined)] + broadcast[k..];
    ActivitiesAreNoSnapshots(seen, events);
    assert [SnapshotMessage(joined)] + (broadcast + Activities(events))[k..] == seen + Activities(events);
  }

  lemma ShownAfterSnapshot(broadcast: seq<StreamMessage>, k: nat, joined: Snapshot, snapshot: Snapshot)
    requires k <= |broadcast|
    ensures ShownBy(broadcast + [SnapshotMessage(snapshot)], k, joined) == Some(snapshot)
  {
  }

  /** The subscriber's latest snapshot is the one the signature stands for,
      or the failure count sets the current one apart, so that the next rebuild must broadcast. */
  ghost predicate Follows(s: MonitorState, k: nat, joined: Snapshot) {
    && k <= |s.broadcast|
    && Shown(s, k, joined).Some?
    && (s.streamReady ==>
          || Normalize(Shown(s, k, joined).value) == s.streamSignature
          || s.snapshot.codex.consecutiveFailures != s.streamSignature.codex.consecutiveFailures)
  }

  /** At a lock release only an account result awaiting its refresh can set them apart. */
  ghost predicate Tracks(s: MonitorState, k: nat, joined: Snapshot) {
    && Follows(s, k, joined)
    && (s.streamReady && s.phase != Refreshing ==> Normalize(Shown(s, k, joined).value) == s.streamSignature)
  }

  lemma JoinTracks(s: MonitorState)
    requires Inv(s)
    ensures Tracks(s, |s.broadcast|, s.snapshot)
  {
    hide BaseInv, RequestsAgree, Normalize;
    assert [SnapshotMessage(s.snapshot)] + s.broadcast[|s.broadcast|..] == [SnapshotMessage(s.snapshot)];
  }

  /** A rebuild leaves the subscriber with a snapshot of the current signature. */
  lemma RebuildRefreshes(s: MonitorState, s': MonitorState, now: int, k: nat, joined: Snapshot)
    requires Follows(s, k, joined) && Rebuilt(s, s', now)
    ensures k <= |s'.broadcast| && s'.streamReady && Shown(s', k, joined).Some?
    ensures Normalize(Shown(s', k, joined).value) == s'.streamSignature == Normalize(s'.snapshot)
  {
    hide AfterRebuild, ComposeThreads, Lists, LiveHooks, IsChoice, Enumerates, AppendAll, Events, ById, IsStale,
         SummaryOf, Activities, ShownBy;
    var uptime, c, threads, requests :| RebuiltWith(s, s', now, uptime, c, threads, requests);
    RebuiltFields(s, s', now, uptime, c, threads, requests);
    var news := s'.log[|s.log|..];
    ShownAfterEvents(s.broadcast, k, joined, news);
    ShownAfterSnapshot(s.broadcast + Activities(news), k, joined, s'.snapshot);
    assert SameFailures(s, s');
  }

  lemma SameFollows(s: MonitorState, mid: MonitorState, k: nat, joined: Snapshot)
    requires Follows(s, k, joined) && SameStream(s, mid) && SameFailures(s, mid)
    ensures Follows(mid, k, joined)
  {
    hide ShownBy, Normalize;
  }

  lemma AccountTracks(s: MonitorState, step: Step, now: int, k: nat, joined: Snapshot)
    requires Tracks(s, k, joined) && step.AccountResult? && Enabled(s, step)
    ensures Tracks(Updated(s, step, now), k, joined)
  {
    hide ShownBy, Normalize;
  }

  lemma StepTracks(s: MonitorState, step: Step, now: int, s': MonitorState, k: nat, joined: Snapshot)
    requires Inv(s) && Next(s, step, now, s') && Tracks(s, k, joined)
    ensures Tracks(s', k, joined)
    ensures !step.AccountResult? ==>
              Normalize(Shown(s', k, joined).value) == Normalize(s'.snapshot)
  {
    hide Inv, Rebuilt, Normalize, ShownBy, Updated, Enabled, SameStream, SameFailures;
    if step.AccountResult? {
      AccountTracks(s, step, now, k, joined);
    } else {
      var mid := Updated(s, step, now);
      SectionKeepsStream(s, step, now);
      SameFollows(s, mid, k, joined);
      RebuildRefreshes(mid, s', now, k, joined);
    }
  }

  lemma {:induction false} RunTracks(states: seq<MonitorState>, steps: seq<Step>, times: seq<int>, i: nat, j: nat)
    requires Run(states, steps, times) && i <= j < |states|
    ensures Tracks(states[j], |states[i].broadcast|, states[i].snapshot)
    ensures i < j && !steps[j - 1].AccountResult? ==>
              Normalize(Shown(states[j], |states[i].broadcast|, states[i].snapshot).value) ==
                  Normalize(states[j].snapshot)
    decreases j
  {
    hide Inv, Next, Tracks, Normalize;
    if i == j {
      InvAlways(states, steps, times, i);
      JoinTracks(states[i]);
    } else {
      RunTracks(states, steps, times, i, j - 1);
      InvAlways(states, steps, times, j - 1);
      StepTracks(states[j - 1], steps[j - 1], times[j - 1], states[j], |states[i].broadcast|, states[i].snapshot);
    }
  }

  /** Deduplication costs no freshness: a subscriber that joined at any lock release and lost nothing
      holds, after every rebuild, a snapshot that shows the same as the current one. */
  lemma SnapshotsStayFresh(states: seq<MonitorState>, steps: seq<Step>, times: seq<int>, i: nat, j: nat)
    requires Run(states, steps, times) && i < j < |states| && !steps[j - 1].AccountResult?
    ensures |states[i].broadcast| <= |states[j].broadcast|
    ensures var seen := [SnapshotMessage(states[i].snapshot)] + states[j].broadcast[|states[i].broadcast|..];
            LastSnapshot(seen).Some? && ShowSame(LastSnapshot(seen).value, states[j].snapshot)
  {
    hide Inv, Next, Normalize, ShowSame;
    RunTracks(states, steps, times, i, j);
    SignatureExactly(Shown(states[j], |states[i].broadcast|, states[i].snapshot).value, states[j].snapshot);
  }

  lemma {:induction false} LastSnapshotOfTail(before: seq<StreamMessage>, joined: Snapshot, later: seq<StreamMessage>)
    ensures LastSnapshot(before + [SnapshotMessage(joined)] + later) == LastSnapshot([SnapshotMessage(joined)] + later)
  {
    var a, b := before + [SnapshotMessage(joined)] + later, [SnapshotMessage(joined)] + later;
    assert a[|a| - 1] == b[|b| - 1];
    if later != [] && !later[|later| - 1].SnapshotMessage? {
      assert a[..|a| - 1] == before + [SnapshotMessage(joined)] + later[..|later| - 1];
      assert b[..|b| - 1] == [SnapshotMessage(joined)] + later[..|later| - 1];
      LastSnapshotOfTail(before, joined, later[..|later| - 1]);
    }
  }

  /** ... and it holds it in its own channel, if that had room for all it was offered since it subscribed. */
  lemma ChannelHoldsFreshSnapshot(states: seq<MonitorState>, steps: seq<Step>, times: seq<int>, i: nat, j: nat,
                                  replay: seq<StreamMessage>, buffer: seq<StreamMessage>)
    requires Run(states, steps, times) && i < j < |states| && !steps[j - 1].AccountResult?
    requires |states[i].broadcast| <= |states[j].broadcast|
    requires var later := states[j].broadcast[|states[i].broadcast|..];
             && buffer == OfferAll(replay + [SnapshotMessage(states[i].snapshot)], later)
             && |replay| + 1 + |later| <= CHANNEL_CAPACITY
    ensures LastSnapshot(buffer).Some? && ShowSame(LastSnapshot(buffer).value, states[j].snapshot)
  {
    hide Run, ShowSame, LastSnapshot, OfferAll;
    var later := states[j].broadcast[|states[i].broadcast|..];
    SnapshotsStayFresh(states, steps, times, i, j);
    RoomKeepsAll(replay + [SnapshotMessage(states[i].snapshot)], later);
    LastSnapshotOfTail(replay, states[i].snapshot, later);
  }

  lemma {:induction false} LastOfLater(joined: Snapshot, later: seq<StreamMessage>)
    ensures LastSnapshot([SnapshotMessage(joined)] + later) ==
            if LastSnapshot(later).Some? then LastSnapshot(later) else Some(joined)
  {
    var all := [SnapshotMessage(joined)] + later;
    if later != [] {
      assert all[|all| - 1] == later[|later| - 1];
      assert all[..|all| - 1] == [SnapshotMessage(joined)] + later[..|later| - 1];
      LastOfLater(joined, later[..|later| - 1]);
    }
  }

  lemma BroadcastGrows(states: seq<MonitorState>, steps: seq<Step>, times: seq<int>, i: nat, j: nat)
    requires Run(states, steps, times) && i <= j < |states|
    ensures |states[i].broadcast| <= |states[j].broadcast|
  {
    RunTracks(states, steps, times, i, j);
    hide Run, Shown, Normalize;
  }

  lemma LaterIsFresh(states: seq<MonitorState>, steps: seq<Step>, times: seq<int>, k: nat, j: nat)
    requires Run(states, steps, times) && k <= j < |states| && (k < j ==> !steps[j - 1].AccountResult?)
    ensures |states[k].broadcast| <= |states[j].broadcast|
    ensures var later := states[j].broadcast[|states[k].broadcast|..];
            LastSnapshot(later).Some? ==> ShowSame(LastSnapshot(later).value, states[j].snapshot)
  {
    hide ShowSame, Run;
    BroadcastGrows(states, steps, times, k, j);
    if k < j {
      SnapshotsStayFresh(states, steps, times, k, j);
      LastOfLater(states[k].snapshot, states[j].broadcast[|states[k].broadcast|..]);
    } else {
      assert states[j].broadcast[|states[k].broadcast|..] == [];
    }
  }

  /** Subscribe as it is: its snapshot, taken at the unlock at `i`, is put in the channel at `k`, behind what was
      broadcast in between. Whenever a rebuild ends at `j`, the last snapshot in the channel is the current one
      exactly when another one has followed it, or it still is the current one itself. */
  lemma SubscriberIsFreshExactly(states: seq<MonitorState>, steps: seq<Step>, times: seq<int>, i: nat, k: nat, j: nat,
                                 replay: seq<StreamMessage>, buffer: seq<StreamMessage>)
    requires Run(states, steps, times) && i <= k <= j < |states| && (k < j ==> !steps[j - 1].AccountResult?)
    requires |states[i].broadcast| <= |states[k].broadcast| <= |states[j].broadcast|
    requires var mid := states[k].broadcast[|states[i].broadcast|..];
             var later := states[j].broadcast[|states[k].broadcast|..];
             && buffer == OfferAll(OfferAll(replay, mid) + [SnapshotMessage(states[i].snapshot)], later)
             && |replay| + |mid| + 1 + |later| <= CHANNEL_CAPACITY
    ensures LastSnapshot(buffer).Some?
    ensures ShowSame(LastSnapshot(buffer).value, states[j].snapshot) <==>
              || LastSnapshot(states[j].broadcast[|states[k].broadcast|..]).Some?
              || ShowSame(states[i].snapshot, states[j].snapshot)
  {
    hide Run, ShowSame, LastSnapshot, OfferAll;
    var mid := states[k].broadcast[|states[i].broadcast|..];
    var later := states[j].broadcast[|states[k].broadcast|..];
    RoomKeepsAll(replay, mid);
    RoomKeepsAll(replay + mid + [SnapshotMessage(states[i].snapshot)], later);
    LastSnapshotOfTail(replay + mid, states[i].snapshot, later);
    LastOfLater(states[i].snapshot, later);
    LaterIsFresh(states, steps, times, k, j);
  }

  // ---- Requests shown ----

  /** At every lock release: a thread bears a request id exactly when some pending request names it, the id is that
      of one of them, its state and fields are that request's, and no pending request goes unshown. */
  lemma RequestsAreShown(states: seq<MonitorState>, steps: seq<Step>, times: seq<int>, i: nat)
    requires Run(states, steps, times) && i < |states|
    ensures var table := states[i].pendingRequests;
            && (forall t :: t in states[i].snapshot.threads ==>
                  && (t.requestId != "" <==> exists key :: NamesThread(table, key, t.id))
                  && (t.requestId != "" ==> NamesThread(table, t.requestId, t.id)
                                            && (table[t.requestId].request.kind == Approval <==>
                                                t.state == WaitingApproval)
                                            && (table[t.requestId].request.kind == Input <==> t.state == WaitingInput)
                                            && t.controllable == table[t.requestId].request.controllable))
            && (forall key :: key in table ==>
                exists t :: t in states[i].snapshot.threads && NamesThread(table, key, t.id))
  {
    InvAlways(states, steps, times, i);
    var s := states[i];
    hide BaseInv, Synced, Run;
    forall t | t in s.snapshot.threads
      ensures t.requestId != "" <==> exists key :: NamesThread(s.pendingRequests, key, t.id)
    {
      NamedThreads(s.pendingRequests, t.id);
    }
    forall key | key in s.pendingRequests
      ensures exists t :: t in s.snapshot.threads && NamesThread(s.pendingRequests, key, t.id)
    {
      var id := s.pendingRequests[key].request.threadId;
      assert id in RequestThreads(s.pendingRequests) && id in Ids(s.snapshot.threads);
      var t :| t in s.snapshot.threads && t.id == id;
    }
  }

  lemma NamedThreads(table: RequestTable, id: string)
    ensures id in RequestThreads(table) <==> exists key :: NamesThread(table, key, id)
  {
    if id in RequestThreads(table) {
      var key :| key in table && table[key].request.threadId == id;
      assert NamesThread(table, key, id);
    }
  }
}
