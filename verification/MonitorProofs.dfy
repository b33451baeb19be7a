/** What a rebuild establishes and what every run of the agent keeps. */
module MonitorProofs {
  import opened Wrappers
  import opened Model
  import opened Merge
  import opened Hooks
  import opened Hierarchy
  import opened Decorate
  import opened Transitions
  import opened Stream
  import opened MonitorState

  // ---- The five passes, thread by thread ----

  lemma {:induction false} FilesystemIsSource(fs: seq<Thread>, id: string)
    requires FromSources([], fs) && FilesystemAt(fs, id).Some?
    ensures IsSourceThread(FilesystemAt(fs, id).value)
  {
    if fs[|fs| - 1].id != id {
      FilesystemIsSource(fs[..|fs| - 1], id);
    }
  }

  lemma {:induction false} MergedIsSource(app: seq<Thread>, fs: seq<Thread>, id: string)
    requires FromSources(app, fs) && MergedAt(app, fs, id).Some?
    ensures IsSourceThread(MergedAt(app, fs, id).value)
  {
    if app == [] {
      FilesystemIsSource(fs, id);
    } else if app[|app| - 1].id != id {
      MergedIsSource(app[..|app| - 1], fs, id);
    }
  }

  lemma HookedThread(m: map<string, Thread>, live: map<string, HookObservation>, id: string)
    requires id in m.Keys + live.Keys && (id in m ==> m[id].id == id)
    ensures id in HookedMap(m, live)
    ensures var t := HookedMap(m, live)[id];
            && t.id == id && (id in m ==> t.lastTurnStatus == m[id].lastTurnStatus)
            && (if id in live then ShownBy(t, live[id], if id in m then m[id] else HookThread(id, live[id]))
                else t == m[id])
            && (id in live ==> t.state == live[id].state)
            && ((id in m ==> IsSourceThread(m[id])) ==> IsSourceThread(t))
  {
  }

  lemma HierarchyThread(m: map<string, Thread>, id: string)
    requires id in m
    ensures id in HierarchyMap(m)
    ensures HierarchyMap(m)[id].(threadRole := m[id].threadRole, rootThreadId := m[id].rootThreadId) == m[id]
  {
  }

  lemma DecoratedThread(m: map<string, Thread>, choice: map<string, PendingRequest>, id: string)
    requires id in m.Keys + choice.Keys && (id in m ==> m[id].id == id)
    ensures id in DecoratedMap(m, choice)
    ensures var t := DecoratedMap(m, choice)[id];
            && t.id == id && (id in m ==> t.lastTurnStatus == m[id].lastTurnStatus)
            && (if id in choice then Bears(t, choice[id]) else t == m[id])
  {
  }

  /** The state of a thread by precedence: pending request, live hook, known app state, filesystem state. */
  function PrecedenceState(app: seq<Thread>, fs: seq<Thread>, live: map<string, HookObservation>,
                           choice: map<string, PendingRequest>, id: string): State {
    if id in choice then (match choice[id].kind case Approval => WaitingApproval case Input => WaitingInput)
    else if id in live then live[id].state
    else
      match LastKnownState(app, id)
      case Some(st) => st
      case None => if FilesystemAt(fs, id).Some? then FilesystemAt(fs, id).value.state else Unknown
  }

  function KnownIds(app: seq<Thread>, fs: seq<Thread>, live: map<string, HookObservation>,
                    choice: map<string, PendingRequest>): set<string> {
    Ids(app) + Ids(fs) + live.Keys + choice.Keys
  }

  /** One thread through all five passes: its state follows precedence, and it either bears
      one pending request in all its fields or none at all. */
  lemma ComposedThread(app: seq<Thread>, fs: seq<Thread>, live: map<string, HookObservation>,
                       choice: map<string, PendingRequest>, id: string)
    requires id in KnownIds(app, fs, live, choice)
    ensures id in ComposeThreads(app, fs, live, choice)
    ensures var t := ComposeThreads(app, fs, live, choice)[id];
            && t.id == id && t.state == PrecedenceState(app, fs, live, choice, id)
            && (id in choice ==> Bears(t, choice[id]))
            && (id !in choice && FromSources(app, fs) ==> IsSourceThread(t))
            && (id in Ids(app) ==> t.lastTurnStatus == FilesystemAt(app, id).value.lastTurnStatus)
            && (id !in choice && id !in live && LastKnown(app, id).Some? ==> SameState(t, LastKnown(app, id).value))
            && (id !in choice && id !in live && id in Ids(app) ==> t.turnId == FilesystemAt(app, id).value.turnId)
  {
    hide LastKnown, SameState, PrecedenceState, HookedMap, HierarchyMap, DecoratedMap, MergedMap, FilesystemAt, Bears,
         ShownBy, IsSourceThread;
    var merged := MergedMap(app, fs);
    var hooked := HookedMap(merged, live);
    var rooted := HierarchyMap(hooked);
    PassKeys(merged, live, choice);
    MergedThread(app, fs, id);
    if id in merged.Keys + live.Keys {
      HookedThread(merged, live, id);
      HierarchyThread(hooked, id);
      RolesAside(hooked, id);
    }
    DecoratedThread(rooted, choice, id);
    HierarchyThread(DecoratedMap(rooted, choice), id);
    RolesAside(DecoratedMap(rooted, choice), id);
    PrecedenceByPass(app, fs, live, choice, id, DecoratedMap(rooted, choice)[id], merged);
  }

  lemma PassKeys(merged: map<string, Thread>, live: map<string, HookObservation>, choice: map<string, PendingRequest>)
    ensures HookedMap(merged, live).Keys == merged.Keys + live.Keys
    ensures HierarchyMap(HookedMap(merged, live)).Keys == merged.Keys + live.Keys
  {
  }

  /** What the merge gives a thread. */
  lemma MergedThread(app: seq<Thread>, fs: seq<Thread>, id: string)
    ensures id in MergedMap(app, fs) <==> id in Ids(app) || id in Ids(fs)
    ensures id in MergedMap(app, fs) ==>
              var t := MergedMap(app, fs)[id];
              && t.id == id
              && (id in Ids(app) ==> t.lastTurnStatus == FilesystemAt(app, id).value.lastTurnStatus)
              && (id in Ids(app) ==> t.turnId == FilesystemAt(app, id).value.turnId)
              && (LastKnown(app, id).Some? ==> SameState(t, LastKnown(app, id).value))
              && (FromSources(app, fs) ==> IsSourceThread(t))
              && t.state == match LastKnownState(app, id)
                            case Some(st) => st
                            case None => if FilesystemAt(fs, id).Some? then FilesystemAt(fs, id).value.state
                                else Unknown
  {
    if MergedAt(app, fs, id).Some? {
      MergedState(app, fs, id);
      MergedRest(app, fs, id);
      if FromSources(app, fs) {
        MergedIsSource(app, fs, id);
      }
    }
  }

  /** The hierarchy pass leaves all but role and root alone. */
  lemma RolesAside(m: map<string, Thread>, id: string)
    requires id in m
    ensures id in HierarchyMap(m)
    ensures var t, u := HierarchyMap(m)[id], m[id];
            && t.id == u.id && t.state == u.state && t.lastTurnStatus == u.lastTurnStatus && t.turnId == u.turnId
            && (forall v :: SameState(u, v) ==> SameState(t, v))
            && (IsSourceThread(u) ==> IsSourceThread(t))
            && (forall r :: Bears(u, r) ==> Bears(t, r))
  {
  }

  lemma PrecedenceByPass(app: seq<Thread>, fs: seq<Thread>, live: map<string, HookObservation>,
                         choice: map<string, PendingRequest>, id: string, t: Thread, merged: map<string, Thread>)
    requires id in KnownIds(app, fs, live, choice) && (id in merged <==> id in Ids(app) || id in Ids(fs))
    requires id in choice ==> Bears(t, choice[id])
    requires id !in choice && id in live ==> t.state == live[id].state
    requires id !in choice && id !in live && id in merged ==> t.state == merged[id].state
    requires id in merged ==> merged[id].state ==
                              match LastKnownState(app, id)
                              case Some(st) => st
                              case None => if FilesystemAt(fs, id).Some? then FilesystemAt(fs, id).value.state
                                  else Unknown
    ensures t.state == PrecedenceState(app, fs, live, choice, id)
  {
  }

  lemma ComposedIds(app: seq<Thread>, fs: seq<Thread>, live: map<string, HookObservation>,
                    choice: map<string, PendingRequest>)
    ensures ComposeThreads(app, fs, live, choice).Keys == KnownIds(app, fs, live, choice)
  {
  }

  lemma EnumeratedIds(threads: seq<Thread>, m: map<string, Thread>)
    requires Enumerates(threads, m)
    ensures Ids(threads) == m.Keys
    ensures forall t :: t in threads ==> t.id in m && m[t.id] == t
  {
    forall id ensures id in Ids(threads) <==> id in m {
      if id in m {
        assert m[id] in threads;
      }
    }
  }

  /** A snapshot is broadcast exactly when it does not show the same as the one the signature was taken of. */
  lemma BroadcastExactly(s: MonitorState, last: Snapshot)
    requires s.streamReady && s.streamSignature == Normalize(last)
    ensures WithBroadcast(s).broadcast ==
            if ShowSame(last, s.snapshot) then s.broadcast else s.broadcast + [SnapshotMessage(s.snapshot)]
    ensures WithBroadcast(s).streamReady && WithBroadcast(s).streamSignature == Normalize(s.snapshot)
  {
    SignatureExactly(last, s.snapshot);
    hide ShowSame, Normalize;
  }

  /** The state a rebuild leaves, field by field. */
  lemma RebuiltFields(s: MonitorState, s': MonitorState, now: int, uptime: int,
                      choice: map<string, PendingRequest>, threads: seq<Thread>, requests: seq<PendingRequest>)
    requires RebuiltWith(s, s', now, uptime, choice, threads, requests)
    ensures s'.snapshot == RebuiltSnapshot(s, now, uptime, threads, requests)
    ensures s'.appThreads == s.appThreads && s'.fsThreads == s.fsThreads && s'.cfg == s.cfg
    ensures s'.usage == s.usage && s'.rateLimits == s.rateLimits
    ensures s'.pendingRequests == s.pendingRequests && s'.requestSequence == s.requestSequence && s'.phase == s.phase
    ensures s'.hookSessions == LiveHooks(s.cfg.hooks, s.hookSessions, now)
    ensures s'.eventsReady && s'.lastThreads == ById(threads)
    ensures s'.log == if s.eventsReady then AppendAll(s.log, Events(s.lastThreads, threads, now)) else s.log
    ensures s'.baseline == if s.eventsReady then s.baseline else ById(threads)
    ensures s'.streamReady && s'.streamSignature == Normalize(s'.snapshot)
    ensures |s.log| <= |s'.log|
    ensures var told := s.broadcast + Activities(s'.log[|s.log|..]);
            s'.broadcast == if s.streamReady && s.streamSignature == Normalize(s'.snapshot) then told
                else told + [SnapshotMessage(s'.snapshot)]
  {
    hide ComposeThreads, Enumerates, Lists, IsChoice, Normalize, RebuiltSnapshot, LiveHooks, Events;
  }

  /** The rebuild refines the pointwise specification, for every iteration order of every map. */
  lemma RebuildRefinesPrecedence(s: MonitorState, s': MonitorState, now: int, uptime: int,
                                 choice: map<string, PendingRequest>, threads: seq<Thread>,
                                     requests: seq<PendingRequest>)
    requires RebuiltWith(s, s', now, uptime, choice, threads, requests)
    ensures s'.snapshot.threads == threads && UniqueIds(threads)
    ensures var live := LiveHooks(s.cfg.hooks, s.hookSessions, now);
            && Ids(threads) == Ids(s.appThreads) + Ids(s.fsThreads) + live.Keys + RequestThreads(s.pendingRequests)
            && (forall t :: t in threads ==> t.state == PrecedenceState(s.appThreads, s.fsThreads, live, choice, t.id))
  {
    hide AfterRebuild, LiveHooks, ComposeThreads, Lists, PrecedenceState;
    var live := LiveHooks(s.cfg.hooks, s.hookSessions, now);
    RebuiltFields(s, s', now, uptime, choice, threads, requests);
    ComposedIds(s.appThreads, s.fsThreads, live, choice);
    EnumeratedIds(threads, ComposeThreads(s.appThreads, s.fsThreads, live, choice));
    forall t | t in threads ensures t.state == PrecedenceState(s.appThreads, s.fsThreads, live, choice, t.id) {
      ComposedThread(s.appThreads, s.fsThreads, live, choice, t.id);
    }
  }

  // ---- Hierarchy across the request pass ----

  lemma SameParents(m: map<string, Thread>, choice: map<string, PendingRequest>)
    ensures var p, q := ParentMap(m), ParentMap(DecoratedMap(HierarchyMap(m), choice));
            && (forall id :: HasParent(p, id) <==> HasParent(q, id))
            && (forall id :: id in p && id in q && HasParent(p, id) ==> p[id] == q[id])
  {
  }

  /** Requests on unknown threads add parentless roots, and so the second hierarchy pass changes nothing. */
  lemma SecondHierarchyPassIsIdle(m: map<string, Thread>, choice: map<string, PendingRequest>)
    requires forall id :: id in m ==> m[id].id == id
    ensures HierarchyMap(DecoratedMap(HierarchyMap(m), choice)) == DecoratedMap(HierarchyMap(m), choice)
  {
    var first := HierarchyMap(m);
    var second := DecoratedMap(first, choice);
    var p, q := ParentMap(m), ParentMap(second);
    SameParents(m, choice);
    forall id | id in second ensures HierarchyMap(second)[id] == second[id] {
      if id in m && m[id].parentThreadId != "" {
        WalkIgnoresParentless(p, q, m[id].parentThreadId, {id});
      }
    }
  }

  // ---- What a rebuild establishes ----

  lemma ThreadShowsRequest(app: seq<Thread>, fs: seq<Thread>, live: map<string, HookObservation>,
                           choice: map<string, PendingRequest>, table: RequestTable, sequence: nat, id: string)
    requires FromSources(app, fs) && TableInv(table, sequence) && IsChoice(choice, table)
    requires id in KnownIds(app, fs, live, choice)
    ensures id in ComposeThreads(app, fs, live, choice)
    ensures ShowsRequest(ComposeThreads(app, fs, live, choice)[id], table)
  {
    ComposedThread(app, fs, live, choice, id);
    if id in choice {
      var key :| NamesThread(table, key, id) && table[key].request == choice[id];
      assert table[key].request.id == key;
    }
  }

  /** At every rebuild, a thread shows a request exactly when the table holds one for it. */
  lemma RebuildShowsRequests(s: MonitorState, s': MonitorState, now: int, uptime: int,
                             choice: map<string, PendingRequest>, threads: seq<Thread>, requests: seq<PendingRequest>)
    requires RebuiltWith(s, s', now, uptime, choice, threads, requests)
    requires FromSources(s.appThreads, s.fsThreads) && TableInv(s.pendingRequests, s.requestSequence)
    ensures RequestsAgree(s') && UniqueIds(s'.snapshot.threads)
  {
    hide AfterRebuild, LiveHooks, ComposeThreads, Lists, ShowsRequest, TableInv;
    var live := LiveHooks(s.cfg.hooks, s.hookSessions, now);
    RebuiltFields(s, s', now, uptime, choice, threads, requests);
    ComposedIds(s.appThreads, s.fsThreads, live, choice);
    EnumeratedIds(threads, ComposeThreads(s.appThreads, s.fsThreads, live, choice));
    forall t | t in threads ensures ShowsRequest(t, s.pendingRequests) {
      ThreadShowsRequest(s.appThreads, s.fsThreads, live, choice, s.pendingRequests, s.requestSequence, t.id);
    }
  }

  /** Only the recovery step names AgentRecovered, so transitions add no such event. */
  lemma {:induction false} TransitionsNeverRecover(log: seq<TaskEvent>, last: map<string, Thread>,
                                                   threads: seq<Thread>, now: int)
    requires forall i :: 0 <= i < |log| ==> log[i].kind != AgentRecovered
    ensures var after := AppendAll(log, Events(last, threads, now));
            forall i :: 0 <= i < |after| ==> after[i].kind != AgentRecovered
  {
    if threads != [] {
      var front, t := threads[..|threads| - 1], threads[|threads| - 1];
      assert threads == front + [t];
      TransitionsNeverRecover(log, last, front, now);
      LogOfOneMore(log, last, front, t, now);
    }
  }

  lemma RebuildKeepsLog(log: seq<TaskEvent>, baseline: map<string, Thread>, last: map<string, Thread>,
                        threads: seq<Thread>, m: map<string, Thread>, now: int)
    requires LogTells(log, baseline, last) && Enumerates(threads, m)
    ensures LogTells(AppendAll(log, Events(last, threads, now)), baseline, ById(threads))
  {
    EnumeratesById(threads, m);
    FaithfulKept(log, baseline, last, threads, m, now);
    AppendAllNumbers(log, Events(last, threads, now));
    TransitionsNeverRecover(log, last, threads, now);
  }

  /** A first comparison sets the baseline, and an empty log says nothing false about it. */
  lemma BaselineTells(threads: seq<Thread>, m: map<string, Thread>)
    requires Enumerates(threads, m)
    ensures LogTells([], ById(threads), ById(threads))
  {
    EnumeratesById(threads, m);
  }

  /** The last pass leaves every thread with the root its own list determines. */
  lemma ComposedIsRooted(app: seq<Thread>, fs: seq<Thread>, live: map<string, HookObservation>,
                         choice: map<string, PendingRequest>, threads: seq<Thread>)
    requires Enumerates(threads, ComposeThreads(app, fs, live, choice))
    ensures HasTrueRoots(ParentsOf(threads), threads) && HasTrueRoles(threads)
  {
    hide HasTrueRoots, HasTrueRoles, ParentsOf, Enumerates, DecoratedMap, HookedMap, MergedMap, PrecedenceState;
    var m := DecoratedMap(HierarchyMap(HookedMap(MergedMap(app, fs), live)), choice);
    ComposedIds(app, fs, live, choice);
    forall id | id in m ensures m[id].id == id {
      ComposedThread(app, fs, live, choice, id);
      HierarchyThread(m, id);
    }
    HierarchyIsRooted(threads, m);
    HierarchyHasRoles(threads, m);
  }

  /** The summary and the roots shown are those of the list shown. */
  lemma RebuildShowsTrueList(s: MonitorState, s': MonitorState, now: int, uptime: int,
                             choice: map<string, PendingRequest>, threads: seq<Thread>, requests: seq<PendingRequest>)
    requires RebuiltWith(s, s', now, uptime, choice, threads, requests)
             && s.snapshot.codex.visibility != SharedAppServer
    ensures ListAgrees(s'.snapshot)
  {
    hide AfterRebuild, LiveHooks, Lists, IsChoice, Enumerates, ComposeThreads, SummaryOf, IsStale, HasTrueRoots,
         HasTrueRoles, ParentsOf;
    RebuiltFields(s, s', now, uptime, choice, threads, requests);
    ComposedIsRooted(s.appThreads, s.fsThreads, LiveHooks(s.cfg.hooks, s.hookSessions, now), choice, threads);
  }

  lemma RebuildKeepsBase(s: MonitorState, s': MonitorState, now: int)
    requires BaseInv(s) && Rebuilt(s, s', now)
    ensures Inv(s') && s'.eventsReady && s'.streamReady && s'.streamSignature == Normalize(s'.snapshot)
  {
    hide AfterRebuild, LiveHooks, ComposeThreads, Lists, Enumerates, IsChoice, RequestsAgree, UniqueIds, TableInv,
         LogTells, Normalize, ById;
    var uptime, choice, threads, requests :| RebuiltWith(s, s', now, uptime, choice, threads, requests);
    RebuildShowsRequests(s, s', now, uptime, choice, threads, requests);
    RebuiltFields(s, s', now, uptime, choice, threads, requests);
    RebuildShowsTrueList(s, s', now, uptime, choice, threads, requests);
    hide ListAgrees, RebuiltSnapshot;
    var m := ComposeThreads(s.appThreads, s.fsThreads, LiveHooks(s.cfg.hooks, s.hookSessions, now), choice);
    if s.eventsReady {
      RebuildKeepsLog(s.log, s.baseline, s.lastThreads, threads, m, now);
    } else {
      BaselineTells(threads, m);
    }
  }

  // ---- Every critical section ----

  lemma PrepareKeepsBase(s: MonitorState)
    requires BaseInv(s)
    ensures BaseInv(PrepareLive(s))
  {
    BaselineTells([], map[]);
    hide LogTells, TableInv, FromSources;
    assert ById([]) == map[];
  }

  lemma TurnKeepsSources(s: MonitorState, threadId: string, turnId: string, status: TurnStatus, started: bool, now: int)
    requires FromSources(s.appThreads, s.fsThreads)
    ensures var s' := WithTurn(s, threadId, turnId, status, started, now);
            FromSources(s'.appThreads, s'.fsThreads)
  {
  }

  lemma RequestKeepsTable(table: RequestTable, sequence: nat, id: string, control: PendingControl, now: int)
    requires TableInv(table, sequence) && id == NextRequestId(sequence + 1, now) && control.request.id == id
    ensures TableInv(table[id := control], sequence + 1)
  {
    RequestIdsAreUnique(sequence + 1, now, 0, 0);
    forall key | key in table ensures Issued(key, sequence + 1) {
      var k: nat, t :| k <= sequence && key == NextRequestId(k, t);
    }
  }

  lemma FewerKeepsTable(table: RequestTable, smaller: RequestTable, sequence: nat)
    requires TableInv(table, sequence) && smaller.Keys <= table.Keys
    requires forall key :: key in smaller ==> smaller[key] == table[key]
    ensures TableInv(smaller, sequence)
  {
  }

  lemma LoopSectionKeepsBase(s: MonitorState, step: Step, now: int)
    requires BaseInv(s) && Enabled(s, step)
    requires step.CollectFilesystem? || step.Dial? || step.DialFailed? || step.Connect? || step.AccountResult?
             || step.Refresh? || step.Disconnect?
    ensures BaseInv(Updated(s, step, now))
  {
    hide LogTells, TableInv;
  }

  lemma InterruptKeepsSources(s: MonitorState, threadId: string, turnId: string, now: int)
    requires FromSources(s.appThreads, s.fsThreads)
    ensures var s' := WithInterrupt(s, threadId, turnId, now);
            FromSources(s'.appThreads, s'.fsThreads)
  {
  }

  lemma InterruptKeepsBase(s: MonitorState, threadId: string, turnId: string, now: int)
    requires BaseInv(s)
    ensures BaseInv(WithInterrupt(s, threadId, turnId, now))
  {
    InterruptKeepsSources(s, threadId, turnId, now);
    hide LogTells, TableInv, FromSources;
    FewerKeepsTable(s.pendingRequests, WithInterrupt(s, threadId, turnId, now).pendingRequests, s.requestSequence);
  }

  lemma RemovalKeepsBase(s: MonitorState, step: Step, now: int)
    requires BaseInv(s)
    requires step.ClearClient? || step.Resolved? || step.Finish?
    ensures BaseInv(Updated(s, step, now))
  {
    hide LogTells, TableInv, FromSources;
    FewerKeepsTable(s.pendingRequests, Updated(s, step, now).pendingRequests, s.requestSequence);
  }

  lemma RequestKeepsBase(s: MonitorState, request: PendingRequest, client: ClientId, appServerId: string, now: int)
    requires BaseInv(s)
    ensures BaseInv(WithRequest(s, request, client, appServerId, now))
  {
    PrepareKeepsBase(s);
    hide LogTells, TableInv, FromSources, NextRequestId;
    var id := NextRequestId(s.requestSequence + 1, now);
    RequestKeepsTable(s.pendingRequests, s.requestSequence, id,
                      PendingControl(request.(id := id, createdAt := now), client, appServerId), now);
  }

  lemma TurnKeepsBase(s: MonitorState, threadId: string, turnId: string, status: TurnStatus, started: bool, now: int)
    requires BaseInv(s)
    ensures BaseInv(WithTurn(s, threadId, turnId, status, started, now))
  {
    PrepareKeepsBase(s);
    TurnKeepsSources(s, threadId, turnId, status, started, now);
    hide LogTells, TableInv, FromSources, IndexOf;
  }

  lemma StatusKeepsSources(s: MonitorState, threadId: string, state: State, confidence: Confidence, now: int)
    requires FromSources(s.appThreads, s.fsThreads)
    ensures var s' := WithStatus(s, threadId, state, confidence, now);
            FromSources(s'.appThreads, s'.fsThreads)
  {
  }

  lemma StatusKeepsBase(s: MonitorState, threadId: string, state: State, confidence: Confidence, now: int)
    requires BaseInv(s)
    ensures BaseInv(WithStatus(s, threadId, state, confidence, now))
  {
    PrepareKeepsBase(s);
    StatusKeepsSources(s, threadId, state, confidence, now);
    hide LogTells, TableInv, FromSources;
  }

  lemma HookKeepsBase(s: MonitorState, session: string, observation: Option<HookObservation>, now: int)
    requires BaseInv(s)
    ensures BaseInv(WithHook(s, session, observation, now))
  {
    PrepareKeepsBase(s);
    hide LogTells, TableInv, FromSources;
  }

  lemma SectionKeepsBase(s: MonitorState, step: Step, now: int)
    requires BaseInv(s) && Enabled(s, step)
    ensures BaseInv(Updated(s, step, now))
  {
    hide BaseInv, WithTurn, WithStatus, WithHook, WithRequest, WithInterrupt;
    match step
    case ServerRequest(request, from, appServerId) => RequestKeepsBase(s, request, from, appServerId, now);
    case TurnChanged(threadId, turnId, status, started) => TurnKeepsBase(s, threadId, turnId, status, started, now);
    case StatusChanged(threadId, state, confidence, at) => StatusKeepsBase(s, threadId, state, confidence, at);
    case Hook(session, observation) => HookKeepsBase(s, session, observation, now);
    case ClearClient(_) => RemovalKeepsBase(s, step, now);
    case Resolved(_) => RemovalKeepsBase(s, step, now);
    case Interrupt(threadId, turnId) => InterruptKeepsBase(s, threadId, turnId, now);
    case Finish(_, _) => RemovalKeepsBase(s, step, now);
    case _ => LoopSectionKeepsBase(s, step, now);
  }

  /** The account result is not followed by a rebuild, and leaves the snapshot unlike the signature
      only together with the failure count. */
  lemma AccountResultKeepsInv(s: MonitorState, failed: bool, lastError: string, now: int)
    requires Inv(s) && s.phase == Serving
    ensures Inv(WithAccountResult(s, failed, lastError, now))
  {
    LoopSectionKeepsBase(s, AccountResult(failed, lastError), now);
  }

  lemma StepKeepsInv(s: MonitorState, step: Step, now: int, s': MonitorState)
    requires Inv(s) && Next(s, step, now, s')
    ensures Inv(s')
  {
    if step.AccountResult? {
      AccountResultKeepsInv(s, step.failed, step.lastError, now);
    } else {
      SectionKeepsBase(s, step, now);
      RebuildKeepsBase(Updated(s, step, now), s', now);
    }
  }

  lemma EmptyListAgrees()
    ensures NO_SUMMARY == SummaryOf([], false) && HasTrueRoots(ParentsOf([]), [])
  {
    hide ParentsOf, RootId, SummaryOf;
    EmptySummary([]);
  }

  lemma NewStateInitial(cfg: Config, now: int)
    ensures Initial(NewState(cfg, now)) && Inv(NewState(cfg, now))
  {
    hide Inv;
    InitialInv(NewState(cfg, now));
  }

  lemma InitialInv(s: MonitorState)
    requires Initial(s)
    ensures Inv(s)
  {
    hide SummaryOf, HasTrueRoots;
    EmptyListAgrees();
    assert Ids(s.snapshot.threads) == {};
  }

  /** The invariant holds at every lock release of every run. */
  lemma {:induction false} InvAlways(states: seq<MonitorState>, steps: seq<Step>, times: seq<int>, i: nat)
    requires Run(states, steps, times) && i < |states|
    ensures Inv(states[i])
  {
    hide Next, Inv;
    if i == 0 {
      InitialInv(states[0]);
    } else {
      InvAlways(states, steps, times, i - 1);
      StepKeepsInv(states[i - 1], steps[i - 1], times[i - 1], states[i]);
    }
  }

  /** Which update each step makes. */
  lemma LoopUpdates(s: MonitorState, now: int)
    ensures forall threads :: Updated(s, Step.CollectFilesystem(threads), now) == WithFilesystem(s, threads)
    ensures Updated(s, Dial, now) == WithConnection(s, Connecting, "").(phase := Dialing)
    ensures forall e :: Updated(s, DialFailed(e), now) == WithConnection(s, ConnectionError, e).(phase := Waiting)
    ensures forall e :: Updated(s, Disconnect(e), now) == WithConnection(s, Disconnected, e).(phase := Waiting)
    ensures forall c, a :: Updated(s, Connect(c, a), now) == WithClient(s, c, a, now)
    ensures forall t, u, r, f :: Updated(s, Refresh(t, u, r, f), now) == WithRefresh(s, t, u, r, f, now)
  {
    hide WithFilesystem, WithConnection, WithClient, WithRefresh, WithoutClient, WithStatus, WithTurn,
         WithoutResolved, WithRequest, WithInterrupt, WithoutRequest, WithHook, WithAccountResult;
  }

  lemma RemovalUpdates(s: MonitorState, now: int)
    ensures forall c :: Updated(s, Step.ClearClient(c), now) == WithoutClient(s, c)
    ensures forall a :: Updated(s, Resolved(a), now) == WithoutResolved(s, a)
    ensures forall t, u :: Updated(s, Step.Interrupt(t, u), now) == WithInterrupt(s, t, u, now)
    ensures forall r, e :: Updated(s, Finish(r, e), now) == WithoutRequest(s, r, e)
  {
    hide WithFilesystem, WithConnection, WithClient, WithRefresh, WithoutClient, WithStatus, WithTurn,
         WithoutResolved, WithRequest,
         WithInterrupt, WithoutRequest, WithHook, WithAccountResult;
  }

  lemma MessageUpdates(s: MonitorState, now: int)
    ensures forall t, st, c, at :: Updated(s, StatusChanged(t, st, c, at), now) == WithStatus(s, t, st, c, at)
    ensures forall t, u, st, b :: Updated(s, TurnChanged(t, u, st, b), now) == WithTurn(s, t, u, st, b, now)
    ensures forall r, c, a :: Updated(s, ServerRequest(r, c, a), now) == WithRequest(s, r, c, a, now)
    ensures forall i, o :: Updated(s, Hook(i, o), now) == WithHook(s, i, o, now)
  {
    hide WithFilesystem, WithConnection, WithClient, WithRefresh, WithoutClient, WithStatus, WithTurn,
         WithoutResolved, WithRequest,
         WithInterrupt, WithoutRequest, WithHook, WithAccountResult;
  }
}
