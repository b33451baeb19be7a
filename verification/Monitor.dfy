/** The agent's Monitor: one object whose critical sections are the steps of MonitorState. */
module Monitor {
  import opened Wrappers
  import opened Model
  import opened Merge
  import opened Hooks
  import opened Hierarchy
  import opened Decorate
  import opened Transitions
  import opened Stream
  import opened MonitorState
  import opened MonitorProofs
  import opened Control

  /** What an app-server request says of itself; `questions` are the texts of its questions. */
  datatype RequestParams = RequestParams(
    threadId: string, turnId: string, itemId: string, cwd: string, reason: string, command: string,
    availableDecisions: seq<string>, questions: seq<string>)

  /** The part of recordServerRequest before its lock: None is an ignored request. */
  function DescribeRequest(rpc: RpcMethod, p: RequestParams): (r: Option<PendingRequest>)
    ensures r.Some? ==> r.value.threadId == p.threadId != "" && r.value.turnId == p.turnId
    ensures r.Some? ==> (r.value.controllable <==> rpc.CommandApproval? || rpc.FileChangeApproval? || rpc.ToolInput?)
    ensures r.Some? ==> (r.value.kind.Input? <==> rpc.ToolInput? || rpc.Elicitation?)
    ensures r.Some? ==> r.value.rpcMethod == rpc && r.value.itemId == p.itemId && r.value.cwd == p.cwd
    ensures r.Some? ==> r.value.questions == if rpc.ToolInput? then p.questions else []
    ensures r.Some? ==> r.value.availableDecisions ==
                        match rpc
                        case CommandApproval => p.availableDecisions
                        case FileChangeApproval => ["accept", "acceptForSession", "decline", "cancel"]
                        case _ => []
    ensures r.Some? ==> r.value.summary ==
                        if rpc == CommandApproval && p.command != "" then p.command
                        else if rpc == ToolInput && p.questions != [] then p.questions[0]
                        else p.reason
    ensures r.None? <==> p.threadId == "" || rpc == OtherMethod
  {
    var base := (kind: RequestKind, summary: string, questions: seq<string>, decisions: seq<string>,
                 controllable: bool) =>
      Some(PendingRequest("", kind, rpc, p.threadId, p.turnId, p.itemId, summary, p.cwd, questions, decisions,
                          controllable, 0));
    if p.threadId == "" then None
    else
      match rpc
      case CommandApproval => base(Approval, if p.command != "" then p.command
                                   else p.reason, [], p.availableDecisions, true)
      case FileChangeApproval => base(Approval, p.reason, [], ["accept", "acceptForSession", "decline", "cancel"], true)
      case ToolInput => base(Input, if p.questions != [] then p.questions[0] else p.reason, p.questions, [], true)
      case PermissionApproval => base(Approval, p.reason, [], [], false)
      case Elicitation => base(Input, p.reason, [], [], false)
      case OtherMethod => None
  }

  /** The hierarchy pass run over a copy of the list. */
  method Rooted(threads: seq<Thread>, ghost m: map<string, Thread>) returns (result: seq<Thread>)
    requires Enumerates(threads, m)
    ensures Enumerates(result, HierarchyMap(m))
  {
    var slice := new Thread[|threads|](i requires 0 <= i < |threads| => threads[i]);
    assert slice[..] == threads;
    AssignThreadHierarchy(slice);
    result := slice[..];
    HierarchyEnumerates(threads, result, m);
  }

  /** The five passes of a rebuild. */
  method ComposeList(cfg: HookConfig, app: seq<Thread>, fs: seq<Thread>, sessions: map<string, HookObservation>,
                     table: RequestTable, now: int)
    returns (threads: seq<Thread>, live: map<string, HookObservation>, active: nat,
             ghost choice: map<string, PendingRequest>)
    ensures live == LiveHooks(cfg, sessions, now) && active == |live|
    ensures IsChoice(choice, table)
    ensures Enumerates(threads, ComposeThreads(app, fs, live, choice))
  {
    hide HookedMap, MergedMap, DecoratedMap, HierarchyMap, LiveHooks, IsChoice, Enumerates;
    ghost var m := MergedMap(app, fs);
    threads := MergeThreads(app, fs);
    threads, live, active := ApplyHooks(cfg, threads, sessions, now, m);
    m := HookedMap(m, live);
    threads := Rooted(threads, m);
    threads, choice := DecoratePendingRequests(threads, table, HierarchyMap(m));
    threads := Rooted(threads, DecoratedMap(HierarchyMap(m), choice));
  }

  /** Ranging over a list into a map by id. */
  method ThreadsById(threads: seq<Thread>) returns (m: map<string, Thread>)
    ensures m == ById(threads)
  {
    m := map[];
    for i := 0 to |threads|
      invariant m == ById(threads[..i])
    {
      assert threads[..i + 1][..i] == threads[..i];
      m := m[threads[i].id := threads[i]];
    }
    assert threads[..|threads|] == threads;
  }

  /** One more message, offered one by one. */
  lemma OneMoreOffered(buffer: seq<StreamMessage>, first: seq<StreamMessage>, later: seq<StreamMessage>,
                       message: StreamMessage)
    requires |first| <= |later|
    ensures OfferAll(buffer, (later + [message])[|first|..]) == Offer(OfferAll(buffer, later[|first|..]), message)
  {
    assert (later + [message])[|first|..] == later[|first|..] + [message];
    OfferOneMore(buffer, later[|first|..], message);
  }

  lemma ReplayNothing()
    ensures forall after :: Replay([], after) == []
  {
  }

  lemma ReplayOneMore(buffer: seq<StreamMessage>, history: seq<TaskEvent>, i: nat, after: nat)
    requires i < |history|
    ensures buffer + Replay(history[i..], after) ==
            (if history[i].sequence > after then buffer + [TaskActivity(history[i])] else buffer) +
                Replay(history[i + 1..], after)
  {
    assert history[i..][1..] == history[i + 1..];
  }

  lemma NothingYet()
    ensures Activities([]) == [] && Window([]) == []
    ensures forall log, last, now :: AppendAll(log, Events(last, [], now)) == log
    ensures forall buffer :: OfferAll(buffer, []) == buffer
  {
  }

  lemma OfferedNothing(buffer: seq<StreamMessage>, broadcast: seq<StreamMessage>)
    ensures OfferAll(buffer, broadcast[|broadcast|..]) == buffer
  {
  }

  lemma LastActivity(log: seq<TaskEvent>, event: TaskEvent)
    ensures var longer := Append(log, event);
            |longer| == |log| + 1 && Activities(longer[|log|..]) == [TaskActivity(longer[|log|])]
  {
  }

  /** Offering in two goes is offering once. */
  lemma OfferedInTurn(buffer: seq<StreamMessage>, first: nat, mid: seq<StreamMessage>, later: seq<StreamMessage>)
    requires first <= |mid| <= |later| && later[..|mid|] == mid
    ensures OfferAll(OfferAll(buffer, mid[first..]), later[|mid|..]) == OfferAll(buffer, later[first..])
  {
    OfferAllConcat(buffer, mid[first..], later[|mid|..]);
    assert mid[first..] + later[|mid|..] == later[first..];
  }

  lemma ToldInTurn(base: seq<StreamMessage>, first: nat, mid: seq<TaskEvent>, later: seq<TaskEvent>)
    requires first <= |mid| <= |later| && later[..|mid|] == mid
    ensures (base + Activities(mid[first..])) + Activities(later[|mid|..]) == base + Activities(later[first..])
  {
    assert mid[first..] + later[|mid|..] == later[first..];
    assert Activities(mid[first..]) + Activities(later[|mid|..]) == Activities(later[first..]);
  }

  datatype HookError = EventNameRequired | SessionRequired

  class Monitor {
    const cfg: Config
    var snapshot: Snapshot
    var appThreads: seq<Thread>
    var fsThreads: seq<Thread>
    var usage: Payload
    var rateLimits: Payload
    var hookSessions: map<string, HookObservation>
    var subs: set<Channel>
    var lastThreads: map<string, Thread>
    var eventsReady: bool
    var eventSequence: nat
    var eventHistory: seq<TaskEvent>
    var streamSignature: Snapshot
    var streamReady: bool
    var pendingRequests: RequestTable
    var requestSequence: nat
    var client: Option<ClientId>

    // History: every event and message so far, the first list compared against, where the
    // app-server loop stands, and the responses written to app-server connections.
    ghost var log: seq<TaskEvent>
    ghost var broadcast: seq<StreamMessage>
    ghost var baseline: map<string, Thread>
    ghost var phase: LoopPhase
    ghost var outbox: seq<Response>

    constructor (cfg: Config, now: int)
      ensures Valid() && Initial(View()) && subs == {} && outbox == []
    {
      hide Inv, Initial, NewSnapshot, Window;
      this.cfg := cfg;
      snapshot := NewSnapshot(now);
      appThreads, fsThreads, usage, rateLimits := [], [], None, None;
      hookSessions, subs, lastThreads, eventsReady, eventSequence, eventHistory := map[], {}, map[], false, 0, [];
      streamReady, streamSignature, pendingRequests, requestSequence, client := false, NewSnapshot(now), map[], 0, None;
      log, broadcast, baseline, phase, outbox := [], [], map[], Waiting, [];
      new;
      NothingYet();
      NewStateInitial(cfg, now);
      assert View() == NewState(cfg, now);
    }

    ghost function View(): MonitorState
      reads this
    {
      MonitorState(cfg, snapshot, appThreads, fsThreads, usage, rateLimits, hookSessions, lastThreads, eventsReady,
                   streamReady, streamSignature, pendingRequests, requestSequence, client, phase, log, broadcast,
                       baseline)
    }

    /** The window is the end of the log, and every registered channel is open. */
    ghost predicate StreamValid()
      reads this, subs
    {
      && eventSequence == |log| && eventHistory == Window(log)
      && (forall ch :: ch in subs ==> !ch.closed)
    }

    /** What holds at every lock release. */
    ghost predicate Valid()
      reads this, subs
    {
      StreamValid() && Inv(View())
    }

    /** Since the old state every subscriber was offered exactly the messages broadcast, in order. */
    twostate predicate Fed()
      reads this, subs
    {
      && subs == old(subs) && |old(broadcast)| <= |broadcast|
      && broadcast[..|old(broadcast)|] == old(broadcast)
      && (forall ch :: ch in subs ==>
          ch.closed == old(ch.closed) && ch.buffer == OfferAll(old(ch.buffer), broadcast[|old(broadcast)|..]))
    }

    /** A non-blocking send to every subscriber. */
    method SendToAll(message: StreamMessage)
      requires forall ch :: ch in subs ==> !ch.closed
      modifies subs
      ensures forall ch :: ch in subs ==> !ch.closed && ch.buffer == Offer(old(ch.buffer), message)
    {
      var todo := subs;
      while todo != {}
        invariant todo <= subs
        invariant forall ch :: ch in subs ==> !ch.closed
        invariant forall ch :: ch in todo ==> ch.buffer == old(ch.buffer)
        invariant forall ch :: ch in subs && ch !in todo ==> ch.buffer == Offer(old(ch.buffer), message)
      {
        var ch :| ch in todo;
        todo := todo - {ch};
        ch.TrySend(message);
      }
    }

    method EmitTaskEvent(event: TaskEvent)
      requires StreamValid()
      modifies this`eventSequence, this`eventHistory, this`log, this`broadcast, subs
      ensures StreamValid()
      ensures log == Append(old(log), event)
      ensures broadcast == old(broadcast) + [TaskActivity(log[|old(log)|])]
      ensures forall ch :: ch in subs ==> ch.buffer == Offer(old(ch.buffer), TaskActivity(log[|old(log)|]))
    {
      eventSequence := eventSequence + 1;
      var numbered := event.(sequence := eventSequence);
      eventHistory := eventHistory + [numbered];
      if |eventHistory| > EVENT_HISTORY_LIMIT {
        eventHistory := eventHistory[|eventHistory| - EVENT_HISTORY_LIMIT..];
      }
      RetainKeepsWindow(log, numbered);
      log := log + [numbered];
      broadcast := broadcast + [TaskActivity(numbered)];
      SendToAll(TaskActivity(numbered));
    }

    /** prepareLiveEventLocked: before the first comparison, what is shown becomes the baseline. */
    method PrepareLiveEvent()
      modifies this`lastThreads, this`eventsReady, this`baseline
      ensures View() == PrepareLive(old(View()))
    {
      if eventsReady {
        return;
      }
      lastThreads := ThreadsById(snapshot.threads);
      baseline := lastThreads;
      eventsReady := true;
    }

    /** One turn of the loop in emitTransitionEventsLocked. */
    method EmitChange(thread: Thread, now: int)
      requires StreamValid()
      modifies this`eventSequence, this`eventHistory, this`log, this`broadcast, subs
      ensures StreamValid() && Fed()
      ensures log == match TransitionEvent(lastThreads, thread, now)
                     case None => old(log)
                     case Some(event) => Append(old(log), event)
      ensures |old(log)| <= |log| && log[..|old(log)|] == old(log)
      ensures broadcast == old(broadcast) + Activities(log[|old(log)|..])
    {
      assert broadcast[|broadcast|..] == [];
      var event := TransitionEvent(lastThreads, thread, now);
      if event.Some? {
        EmitTaskEvent(event.value);
        forall ch | ch in subs ensures ch.buffer == OfferAll(old(ch.buffer), broadcast[|old(broadcast)|..]) {
          OneMoreOffered(old(ch.buffer), old(broadcast), old(broadcast), TaskActivity(log[|old(log)|]));
        }
      }
    }

    /** The emitting loop of emitTransitionEventsLocked. */
    method EmitChanges(threads: seq<Thread>, now: int)
      requires StreamValid()
      modifies this`eventSequence, this`eventHistory, this`log, this`broadcast, subs
      ensures StreamValid() && Fed()
      ensures log == AppendAll(old(log), Events(lastThreads, threads, now))
      ensures broadcast == old(broadcast) + Activities(log[|old(log)|..])
    {
      hide Activities, Window, TransitionEvent, OfferAll, Events, AppendAll;
      assert log[|log|..] == [] && broadcast[|broadcast|..] == [];
      NothingYet();
      for i := 0 to |threads|
        invariant StreamValid() && Fed()
        invariant log == AppendAll(old(log), Events(lastThreads, threads[..i], now))
        invariant broadcast == old(broadcast) + Activities(log[|old(log)|..])
      {
        assert threads[..i + 1] == threads[..i] + [threads[i]];
        LogOfOneMore(old(log), lastThreads, threads[..i], threads[i], now);
        ghost var mid, told := log, broadcast;
        EmitChange(threads[i], now);
        ToldInTurn(old(broadcast), |old(log)|, mid, log);
        forall ch | ch in subs ensures ch.buffer == OfferAll(old(ch.buffer), broadcast[|old(broadcast)|..]) {
          OfferedInTurn(old(ch.buffer), |old(broadcast)|, told, broadcast);
        }
      }
      assert threads[..|threads|] == threads;
    }

    method TakeBaseline(current: map<string, Thread>)
      requires StreamValid()
      modifies this`lastThreads, this`eventsReady, this`baseline
      ensures StreamValid() && Fed()
      ensures View() == old(View()).(lastThreads := current, eventsReady := true, baseline := current)
    {
      assert broadcast[|broadcast|..] == [];
      lastThreads := current;
      baseline := current;
      eventsReady := true;
    }

    method EmitAndKeep(threads: seq<Thread>, current: map<string, Thread>, now: int)
      requires StreamValid()
      modifies this`eventSequence, this`eventHistory, this`log, this`broadcast, this`lastThreads, subs
      ensures StreamValid() && Fed()
      ensures var told := AppendAll(old(log), Events(old(lastThreads), threads, now));
              View() == old(View()).(lastThreads := current, log := told,
                                     broadcast := old(broadcast) + Activities(told[|old(log)|..]))
    {
      hide Events, AppendAll, Activities, Window, OfferAll;
      EmitChanges(threads, now);
      lastThreads := current;
    }

    method EmitTransitionEvents(threads: seq<Thread>, now: int)
      requires StreamValid()
      modifies this`eventSequence, this`eventHistory, this`log, this`broadcast, this`lastThreads, this`eventsReady,
               this`baseline, subs
      ensures StreamValid() && Fed()
      ensures View() == WithTransitions(old(View()), threads, now)
    {
      var current := ThreadsById(threads);
      ghost var before := View();
      assert before.eventsReady == eventsReady && before.lastThreads == lastThreads;
      assert before.log == log && before.broadcast == broadcast;
      hide View, Events, AppendAll, Activities, ById, Window, OfferAll;
      if eventsReady {
        EmitAndKeep(threads, current, now);
      } else {
        TakeBaseline(current);
      }
    }

    /** The signature is kept as the normalized snapshot itself, that is, taken to be collision-free. */
    method BroadcastSnapshot()
      requires StreamValid()
      modifies this`streamReady, this`streamSignature, this`broadcast, subs
      ensures StreamValid() && Fed()
      ensures View() == WithBroadcast(old(View()))
    {
      assert broadcast[|broadcast|..] == [];
      var signature := Normalize(snapshot);
      if streamReady && signature == streamSignature {
        return;
      }
      streamReady := true;
      streamSignature := signature;
      broadcast := broadcast + [SnapshotMessage(snapshot)];
      SendToAll(SnapshotMessage(snapshot));
      forall ch | ch in subs ensures ch.buffer == OfferAll(old(ch.buffer), broadcast[|old(broadcast)|..]) {
        OneMoreOffered(old(ch.buffer), old(broadcast), old(broadcast), SnapshotMessage(snapshot));
      }
    }

    /** The middle of rebuildLocked: the snapshot the new lists and all that is derived from them make. */
    method Derive(now: int, uptime: int, threads: seq<Thread>, live: map<string, HookObservation>,
                  requests: seq<PendingRequest>)
      returns (shown: Snapshot)
      requires live == LiveHooks(cfg.hooks, hookSessions, now)
      ensures shown == RebuiltSnapshot(View(), now, uptime, threads, requests)
    {
      hide LiveHooks, SummaryOf;
      var codex := snapshot.codex;
      if codex.visibility == Unavailable && |fsThreads| > 0 {
        codex := codex.(visibility := FilesystemFallback);
      }
      var shared := codex.visibility == SharedAppServer;
      var summary := Summarize(threads, shared);
      if codex.connection == Connected && |fsThreads| > 0 && !shared {
        codex := codex.(visibility := AgentOwned);
      }
      var recent := |fsThreads| > 0 && now - fsThreads[0].updatedAt <= cfg.staleAfter;
      shown := snapshot.(
        generatedAt := now, uptime := uptime, threads := threads, summary := summary, pendingRequests := requests,
        codex := codex, hooks := snapshot.hooks.(activeSessions := |live|),
        usage := usage, rateLimits := rateLimits, stale := codex.connection != Connected && !recent);
    }

    method Show(now: int, uptime: int, threads: seq<Thread>, live: map<string, HookObservation>,
                requests: seq<PendingRequest>)
      requires live == LiveHooks(cfg.hooks, hookSessions, now)
      modifies this`snapshot, this`hookSessions
      ensures View() == old(View()).(hookSessions := live,
                                     snapshot := RebuiltSnapshot(old(View()), now, uptime, threads, requests))
    {
      hide LiveHooks, RebuiltSnapshot;
      var shown := Derive(now, uptime, threads, live, requests);
      hookSessions, snapshot := live, shown;
    }

    /** Both message-sending steps of rebuildLocked. */
    method Publish(threads: seq<Thread>, now: int)
      requires StreamValid()
      modifies this`eventSequence, this`eventHistory, this`log, this`broadcast, this`lastThreads, this`eventsReady,
               this`baseline, this`streamReady, this`streamSignature, subs
      ensures StreamValid() && Fed()
      ensures View() == WithBroadcast(WithTransitions(old(View()), threads, now))
    {
      EmitTransitionEvents(threads, now);
      ghost var told := broadcast;
      hide WithBroadcast, WithTransitions, Window, OfferAll;
      BroadcastSnapshot();
      forall ch | ch in subs ensures ch.buffer == OfferAll(old(ch.buffer), broadcast[|old(broadcast)|..]) {
        OfferedInTurn(old(ch.buffer), |old(broadcast)|, told, broadcast);
      }
    }

    /** rebuildLocked. `uptime` is the clock reading since start. */
    method Rebuild(now: int, uptime: int)
      requires StreamValid()
      requires forall key :: key in pendingRequests ==> pendingRequests[key].request.id == key
      modifies this`snapshot, this`hookSessions, this`eventSequence, this`eventHistory, this`log, this`broadcast,
               this`lastThreads, this`eventsReady, this`baseline, this`streamReady, this`streamSignature, subs
      ensures StreamValid() && Fed()
      ensures Rebuilt(old(View()), View(), now)
    {
      ghost var before := View();
      var threads, live, active, choice :=
        ComposeList(cfg.hooks, appThreads, fsThreads, hookSessions, pendingRequests, now);
      var requests := PendingRequestSnapshot(pendingRequests);
      hide LiveHooks, ComposeThreads, IsChoice, Enumerates, Lists, RebuiltSnapshot, WithBroadcast, WithTransitions,
           Window;
      Show(now, uptime, threads, live, requests);
      Publish(threads, now);
      assert RebuiltWith(before, View(), now, uptime, choice, threads, requests);
    }

    /** A new channel, registered with the replay in it, while the lock is held. */
    method Register(after: nat) returns (ch: Channel)
      requires StreamValid()
      modifies this`subs
      ensures StreamValid() && fresh(ch) && subs == old(subs) + {ch}
      ensures ch.buffer == Replay(eventHistory, after) && |ch.buffer| <= EVENT_HISTORY_LIMIT
    {
      assert |eventHistory| <= EVENT_HISTORY_LIMIT;
      hide Replay, Window;
      var history := eventHistory;
      ch := new Channel();
      subs := subs + {ch};
      assert history[0..] == history && history[|history|..] == [];
      for i := 0 to |history|
        invariant !ch.closed && |ch.buffer| <= i
        invariant ch.buffer + Replay(history[i..], after) == Replay(history, after)
        modifies ch`buffer
      {
        ReplayOneMore(ch.buffer, history, i, after);
        if history[i].sequence > after {
          ch.Send(TaskActivity(history[i]));
        }
      }
      ReplayNothing();
      assert ch.buffer + [] == ch.buffer;
    }

    /** Subscribe when nothing comes between its unlock and its last send: retained events above the cursor, then
        the snapshot. */
    method Subscribe(after: nat) returns (ch: Channel)
      requires Valid()
      modifies this`subs
      ensures Valid() && fresh(ch) && !ch.closed && subs == old(subs) + {ch}
      ensures ch.buffer == Activities(log[ReplayStart(|log|, after)..]) + [SnapshotMessage(snapshot)]
    {
      ch := Register(after);
      ReplayIsSuffix(log, after);
      ch.Send(SnapshotMessage(snapshot));
    }

    /** The unsubscribe function: forget the channel, then close it. */
    method Unsubscribe(ch: Channel)
      requires Valid() && ch in subs
      modifies this`subs, ch`closed
      ensures Valid() && ch.closed && subs == old(subs) - {ch}
    {
      subs := subs - {ch};
      ch.Close();
    }

    // ---- Critical sections ----

    /** The common end of the sections: rebuild, and the step is done. */
    method Conclude(now: int, uptime: int)
      requires StreamValid() && BaseInv(View())
      modifies this`snapshot, this`hookSessions, this`eventSequence, this`eventHistory, this`log, this`broadcast,
               this`lastThreads, this`eventsReady, this`baseline, this`streamReady, this`streamSignature, subs
      ensures Valid() && Fed()
      ensures Rebuilt(old(View()), View(), now)
    {
      ghost var before := View();
      TableKeys(before);
      hide BaseInv, Rebuilt, Window;
      Rebuild(now, uptime);
      RebuildKeepsBase(before, View(), now);
    }

    method CollectFilesystem(threads: seq<Thread>, now: int, uptime: int)
      requires Valid() && Enabled(View(), Step.CollectFilesystem(threads))
      modifies this, subs
      ensures Valid() && Fed() && outbox == old(outbox)
      ensures Next(old(View()), Step.CollectFilesystem(threads), now, View())
    {
      hide Updated, Enabled, Inv, BaseInv, Rebuilt, Window;
      ghost var before := View();
      SectionEntered(before, Step.CollectFilesystem(threads), now);
      LoopUpdates(before, now);
      fsThreads := threads;
      Conclude(now, uptime);
    }

    method TakeConnection(connection: Connection, lastError: string, ghost next: LoopPhase)
      modifies this`snapshot, this`phase
      ensures View() == WithConnection(old(View()), connection, lastError).(phase := next)
    {
      snapshot := snapshot.(codex := snapshot.codex.(connection := connection, lastError := lastError));
      phase := next;
    }

    /** setConnection, as the app-server loop calls it. */
    method SetConnection(connection: Connection, lastError: string, now: int, uptime: int, ghost step: Step)
      requires Valid() && Enabled(View(), step)
      requires (step == Dial && connection == Connecting && lastError == "")
            || (step == DialFailed(lastError) && connection == ConnectionError)
            || (step == Step.Disconnect(lastError) && connection == Disconnected)
      modifies this, subs
      ensures Valid() && Fed() && outbox == old(outbox)
      ensures Next(old(View()), step, now, View())
    {
      hide View, OfferAll, Updated, Enabled, Inv, BaseInv, Rebuilt, Window, WithConnection;
      ghost var before := View();
      SectionEntered(before, step, now);
      LoopUpdates(before, now);
      TakeConnection(connection, lastError, if step.Dial? then Dialing else Waiting);
      Conclude(now, uptime);
    }

    method TakeConnected(newClient: ClientId, appServer: string)
      modifies this`client, this`snapshot, this`phase
      ensures View() == WithConnected(old(View()), newClient, appServer)
    {
      client := Some(newClient);
      snapshot := snapshot.(appServer := appServer,
                            codex := snapshot.codex.(connection := Connected, visibility := AgentOwned,
                                                     lastError := ""));
      phase := Serving;
    }

    method TakeClient(newClient: ClientId, appServer: string, now: int)
      requires StreamValid()
      modifies this`client, this`snapshot, this`phase, this`eventSequence, this`eventHistory, this`log,
               this`broadcast, subs
      ensures StreamValid() && Fed()
      ensures View() == WithClient(old(View()), newClient, appServer, now)
    {
      var previous := snapshot.codex.connection;
      assert previous == View().snapshot.codex.connection;
      hide View, Window, OfferAll, WithConnected, WithRecovery;
      TakeConnected(newClient, appServer);
      AnnounceRecovery(previous, now);
    }

    /** The section of runAppServer after a successful dial, with its recovery event. */
    method ConnectClient(newClient: ClientId, appServer: string, now: int, uptime: int)
      requires Valid() && Enabled(View(), Connect(newClient, appServer))
      modifies this, subs
      ensures Valid() && Fed() && outbox == old(outbox)
      ensures Next(old(View()), Connect(newClient, appServer), now, View())
    {
      hide Updated, Enabled, Inv, BaseInv, Rebuilt, Window, OfferAll, WithClient;
      ghost var before := View();
      SectionEntered(before, Connect(newClient, appServer), now);
      LoopUpdates(before, now);
      TakeClient(newClient, appServer, now);
      ghost var told := broadcast;
      Conclude(now, uptime);
      forall ch | ch in subs ensures ch.buffer == OfferAll(old(ch.buffer), broadcast[|old(broadcast)|..]) {
        OfferedInTurn(old(ch.buffer), |old(broadcast)|, told, broadcast);
      }
    }

    method AnnounceRecovery(previous: Connection, now: int)
      requires StreamValid()
      modifies this`eventSequence, this`eventHistory, this`log, this`broadcast, subs
      ensures StreamValid() && Fed()
      ensures View() == WithRecovery(old(View()), previous, now)
    {
      hide Append, RecoveredEvent, Window, OfferAll;
      assert broadcast[|broadcast|..] == [];
      NothingYet();
      if RecoveryIsDue(previous) {
        EmitTaskEvent(RecoveredEvent(now));
        LastActivity(old(log), RecoveredEvent(now));
        hide Activities;
        forall ch | ch in subs ensures ch.buffer == OfferAll(old(ch.buffer), broadcast[|old(broadcast)|..]) {
          OneMoreOffered(old(ch.buffer), old(broadcast), old(broadcast), TaskActivity(log[|old(log)|]));
          OfferedNothing(old(ch.buffer), old(broadcast));
        }
      }
    }

    /** recordAccountResult: true asks the caller to restart the app-server. */
    method RecordAccountResult(failed: bool, lastError: string, now: int) returns (restart: bool)
      requires Valid() && Enabled(View(), AccountResult(failed, lastError))
      modifies this`snapshot, this`phase
      ensures Valid()
      ensures View() == WithAccountResult(old(View()), failed, lastError, now)
      ensures restart <==> failed && old(snapshot.codex.consecutiveFailures) + 1 >= FailureThreshold(cfg)
    {
      hide Inv, Window;
      AccountResultKeepsInv(View(), failed, lastError, now);
      phase := Refreshing;
      var codex := snapshot.codex;
      if !failed {
        snapshot := snapshot.(codex := codex.(consecutiveFailures := 0));
        return false;
      }
      codex := codex.(consecutiveFailures := codex.consecutiveFailures + 1, lastError := lastError);
      if codex.consecutiveFailures < FailureThreshold(cfg) {
        snapshot := snapshot.(codex := codex);
        return false;
      }
      snapshot := snapshot.(codex := codex.(lastRecoveryAt := Some(now), connection := Recovering));
      return true;
    }

    method ShowCodex(codex: CodexInfo)
      modifies this`snapshot
      ensures View() == SetCodex(old(View()), codex)
    {
      snapshot := snapshot.(codex := codex);
    }

    method TakeResponses(threads: seq<Thread>, newUsage: Payload, newLimits: Payload)
      modifies this`appThreads, this`usage, this`rateLimits, this`phase
      ensures View() == WithResponses(old(View()), threads, newUsage, newLimits)
    {
      appThreads, usage, rateLimits, phase := threads, newUsage, newLimits, Serving;
    }

    method TakeRefresh(threads: seq<Thread>, newUsage: Payload, newLimits: Payload, failed: bool, now: int)
      modifies this`appThreads, this`usage, this`rateLimits, this`phase, this`snapshot
      ensures View() == WithRefresh(old(View()), threads, newUsage, newLimits, failed, now)
    {
      var codex := RefreshedCodex(snapshot.codex, failed, now);
      assert codex == RefreshedCodex(View().snapshot.codex, failed, now);
      hide View, SetCodex, WithResponses, RefreshedCodex;
      TakeResponses(threads, newUsage, newLimits);
      ShowCodex(codex);
    }

    /** The closing section of refreshAppServer. */
    method ApplyRefresh(threads: seq<Thread>, newUsage: Payload, newLimits: Payload, failed: bool, now: int,
                        uptime: int)
      requires Valid() && Enabled(View(), Refresh(threads, newUsage, newLimits, failed))
      modifies this, subs
      ensures Valid() && Fed() && outbox == old(outbox)
      ensures Next(old(View()), Refresh(threads, newUsage, newLimits, failed), now, View())
    {
      hide View, OfferAll, Updated, Enabled, Inv, BaseInv, Rebuilt, Window, WithRefresh;
      ghost var before := View();
      SectionEntered(before, Refresh(threads, newUsage, newLimits, failed), now);
      LoopUpdates(before, now);
      TakeRefresh(threads, newUsage, newLimits, failed, now);
      Conclude(now, uptime);
    }

    method ForgetClient(lost: ClientId)
      modifies this`client, this`pendingRequests
      ensures View() == WithoutClient(old(View()), lost)
    {
      if client == Some(lost) {
        client := None;
      }
      pendingRequests := RemoveRequests(pendingRequests, (c: PendingControl) => c.client == lost);
    }

    method ClearClient(lost: ClientId, now: int, uptime: int)
      requires Valid()
      modifies this, subs
      ensures Valid() && Fed() && outbox == old(outbox)
      ensures Next(old(View()), Step.ClearClient(lost), now, View())
    {
      hide View, OfferAll, Updated, Enabled, Inv, BaseInv, Rebuilt, Window, WithoutClient;
      ghost var before := View();
      AlwaysEnabled(before, Step.ClearClient(lost));
      SectionEntered(before, Step.ClearClient(lost), now);
      RemovalUpdates(before, now);
      ForgetClient(lost);
      Conclude(now, uptime);
    }

    method TakeStatus(threadId: string, state: State, confidence: Confidence, at: int)
      modifies this`lastThreads, this`eventsReady, this`baseline, this`appThreads
      ensures View() == WithStatus(old(View()), threadId, state, confidence, at)
    {
      hide PrepareLive;
      PrepareLiveEvent();
      ghost var ready := appThreads;
      for i := 0 to |appThreads|
        invariant |appThreads| == |ready|
        invariant forall j :: 0 <= j < i ==> appThreads[j] == ReplaceState(ready[j], threadId, state, confidence, at)
        invariant forall j :: i <= j < |appThreads| ==> appThreads[j] == ready[j]
        modifies this`appThreads
      {
        if appThreads[i].id == threadId {
          appThreads := appThreads[i :=
                                   appThreads[i].(state := state, stateSource := AppServerEvent,
                                                  stateConfidence := confidence, updatedAt := at)];
        }
      }
      assert appThreads == WithStatus(old(View()), threadId, state, confidence, at).appThreads;
    }

    /** thread/status/changed: every app-server entry of the thread, in place. */
    method ThreadStatusChanged(threadId: string, state: State, confidence: Confidence, at: int, now: int, uptime: int)
      requires Valid()
      modifies this, subs
      ensures Valid() && Fed() && outbox == old(outbox)
      ensures Next(old(View()), StatusChanged(threadId, state, confidence, at), now, View())
    {
      hide View, OfferAll, Updated, Enabled, Inv, BaseInv, Rebuilt, Window, WithStatus;
      ghost var before := View();
      AlwaysEnabled(before, StatusChanged(threadId, state, confidence, at));
      SectionEntered(before, StatusChanged(threadId, state, confidence, at), now);
      MessageUpdates(before, now);
      TakeStatus(threadId, state, confidence, at);
      Conclude(now, uptime);
    }

    method TakeTurnChange(threadId: string, turnId: string, status: TurnStatus, started: bool, now: int)
      modifies this`lastThreads, this`eventsReady, this`baseline, this`appThreads
      ensures View() == WithTurn(old(View()), threadId, turnId, status, started, now)
    {
      hide PrepareLive, TakeTurn;
      PrepareLiveEvent();
      var index := FindThread(appThreads, threadId);
      if index == |appThreads| {
        appThreads := appThreads + [BlankThread(threadId)];
      }
      appThreads := appThreads[index := TakeTurn(appThreads[index], turnId, status, started, now)];
    }

    method EnterTurn(threadId: string, turnId: string, status: TurnStatus, started: bool, now: int, uptime: int)
      requires Valid()
      modifies this, subs
      ensures Valid() && Fed() && outbox == old(outbox)
      ensures Next(old(View()), TurnChanged(threadId, turnId, status, started), now, View())
    {
      hide View, OfferAll, Updated, Enabled, Inv, BaseInv, Rebuilt, Window, WithTurn;
      ghost var before := View();
      AlwaysEnabled(before, TurnChanged(threadId, turnId, status, started));
      SectionEntered(before, TurnChanged(threadId, turnId, status, started), now);
      MessageUpdates(before, now);
      TakeTurnChange(threadId, turnId, status, started, now);
      Conclude(now, uptime);
    }

    /** turn/started and turn/completed; a message that names no thread is ignored. */
    method ThreadTurnChanged(threadId: string, turnId: string, status: TurnStatus, started: bool, now: int, uptime: int)
      requires Valid()
      modifies this, subs
      ensures Valid() && Fed() && outbox == old(outbox)
      ensures threadId == "" ==> View() == old(View())
      ensures threadId != "" ==> Next(old(View()), TurnChanged(threadId, turnId, status, started), now, View())
    {
      hide View, Inv, Next, Window, OfferAll;
      NothingTold();
      if threadId != "" {
        EnterTurn(threadId, turnId, status, started, now, uptime);
      }
    }

    method ForgetResolved(appServerId: string)
      modifies this`pendingRequests
      ensures View() == WithoutResolved(old(View()), appServerId)
    {
      pendingRequests := RemoveRequests(pendingRequests, (c: PendingControl) => c.appServerId == appServerId);
    }

    /** serverRequest/resolved */
    method ServerRequestResolved(appServerId: string, now: int, uptime: int)
      requires Valid()
      modifies this, subs
      ensures Valid() && Fed() && outbox == old(outbox)
      ensures Next(old(View()), Resolved(appServerId), now, View())
    {
      hide View, OfferAll, Updated, Enabled, Inv, BaseInv, Rebuilt, Window, WithoutResolved;
      ghost var before := View();
      AlwaysEnabled(before, Resolved(appServerId));
      SectionEntered(before, Resolved(appServerId), now);
      RemovalUpdates(before, now);
      ForgetResolved(appServerId);
      Conclude(now, uptime);
    }

    method TakeRequest(described: PendingRequest, from: ClientId, appServerId: string, now: int)
      modifies this`lastThreads, this`eventsReady, this`baseline, this`requestSequence, this`pendingRequests
      ensures View() == WithRequest(old(View()), described, from, appServerId, now)
    {
      hide PrepareLive, NextRequestId;
      PrepareLiveEvent();
      requestSequence := requestSequence + 1;
      var requestId := NextRequestId(requestSequence, now);
      var request := described.(id := requestId, createdAt := now);
      pendingRequests := pendingRequests[requestId := PendingControl(request, from, appServerId)];
    }

    method EnterRequest(described: PendingRequest, from: ClientId, appServerId: string, now: int, uptime: int)
      requires Valid()
      modifies this, subs
      ensures Valid() && Fed() && outbox == old(outbox)
      ensures Next(old(View()), ServerRequest(described, from, appServerId), now, View())
    {
      hide View, OfferAll, Updated, Enabled, Inv, BaseInv, Rebuilt, Window, WithRequest;
      ghost var before := View();
      AlwaysEnabled(before, ServerRequest(described, from, appServerId));
      SectionEntered(before, ServerRequest(described, from, appServerId), now);
      MessageUpdates(before, now);
      TakeRequest(described, from, appServerId, now);
      Conclude(now, uptime);
    }

    /** recordServerRequest; `recorded` tells whether the request was understood. */
    method RecordServerRequest(from: ClientId, appServerId: string, rpc: RpcMethod, params: RequestParams, now: int,
                               uptime: int)
      returns (recorded: bool)
      requires Valid()
      modifies this, subs
      ensures Valid() && Fed() && outbox == old(outbox)
      ensures recorded <==> appServerId != "" && params.threadId != "" && rpc != OtherMethod
      ensures !recorded ==> View() == old(View())
      ensures recorded ==> Next(old(View()), ServerRequest(DescribeRequest(rpc, params).value, from, appServerId),
                                now, View())
    {
      hide Inv, Next, Window, OfferAll;
      Understood(rpc, params);
      hide DescribeRequest;
      var described := DescribeRequest(rpc, params);
      recorded := appServerId != "" && described.Some?;
      if recorded {
        EnterRequest(described.value, from, appServerId, now, uptime);
      } else {
        assert broadcast[|broadcast|..] == [];
        NothingYet();
      }
    }

    method TakeHook(session: string, observation: Option<HookObservation>, now: int)
      modifies this`lastThreads, this`eventsReady, this`baseline, this`snapshot, this`hookSessions
      ensures View() == WithHook(old(View()), session, observation, now)
    {
      hide PrepareLive;
      PrepareLiveEvent();
      snapshot := snapshot.(hooks :=
                            snapshot.hooks.(receivedEvents := snapshot.hooks.receivedEvents + 1,
                                            lastEventAt := Some(now)));
      if observation.Some? {
        hookSessions := hookSessions[session := observation.value.(receivedAt := now)];
      }
    }

    /** RecordHook: `observation` is what the event maps to, if anything. Name and session come trimmed. */
    method RecordHook(eventName: string, session: string, observation: Option<HookObservation>, now: int, uptime: int)
      returns (r: Result<bool, HookError>)
      requires Valid()
      modifies this, subs
      ensures Valid() && Fed() && outbox == old(outbox)
      ensures r == if eventName == "" then Err(EventNameRequired) else if session == "" then Err(SessionRequired)
              else Ok(observation.Some?)
      ensures r.Err? ==> View() == old(View())
      ensures r.Ok? ==> Next(old(View()), Hook(session, observation), now, View())
    {
      hide View, Inv, Next, Window, OfferAll;
      NothingTold();
      if eventName == "" {
        return Err(EventNameRequired);
      }
      if session == "" {
        return Err(SessionRequired);
      }
      EnterHook(session, observation, now, uptime);
      return Ok(observation.Some?);
    }

    method EnterHook(session: string, observation: Option<HookObservation>, now: int, uptime: int)
      requires Valid()
      modifies this, subs
      ensures Valid() && Fed() && outbox == old(outbox)
      ensures Next(old(View()), Hook(session, observation), now, View())
    {
      hide View, OfferAll, Updated, Enabled, Inv, BaseInv, Rebuilt, Window, WithHook;
      ghost var before := View();
      AlwaysEnabled(before, Hook(session, observation));
      SectionEntered(before, Hook(session, observation), now);
      MessageUpdates(before, now);
      TakeHook(session, observation, now);
      Conclude(now, uptime);
    }

    method FinishPending(requestId: string, expected: PendingControl, now: int, uptime: int)
      requires Valid()
      modifies this, subs
      ensures Valid() && Fed() && outbox == old(outbox)
      ensures Next(old(View()), Finish(requestId, expected), now, View())
    {
      hide Updated, Enabled, Inv, BaseInv, Rebuilt, Window;
      ghost var before := View();
      AlwaysEnabled(before, Finish(requestId, expected));
      SectionEntered(before, Finish(requestId, expected), now);
      RemovalUpdates(before, now);
      if requestId in pendingRequests && pendingRequests[requestId] == expected {
        pendingRequests := pendingRequests - {requestId};
      }
      assert View() == WithoutRequest(before, requestId, expected);
      Conclude(now, uptime);
    }

    // ---- Actions ----

    method LookupPending(requestId: string, threadId: string, turnId: string, kind: RequestKind)
        returns (r: Result<PendingControl, ControlError>)
      ensures r == Lookup(pendingRequests, requestId, threadId, turnId, kind)
      ensures r == Err(RequestNotFound) <==> requestId !in pendingRequests
      ensures r == Err(RequestConflict) <==>
                requestId in pendingRequests && !Matches(pendingRequests[requestId].request, threadId, turnId, kind)
      ensures r == Err(NotControllable) <==>
                && requestId in pendingRequests && Matches(pendingRequests[requestId].request, threadId, turnId, kind)
                && !pendingRequests[requestId].request.controllable
      ensures r.Ok? ==> requestId in pendingRequests && r.value == pendingRequests[requestId]
      ensures r.Err? ==> r.error in {RequestNotFound, RequestConflict, NotControllable}
    {
      if requestId !in pendingRequests {
        return Err(RequestNotFound);
      }
      var pending := pendingRequests[requestId];
      if pending.request.threadId != threadId || pending.request.turnId != turnId || pending.request.kind != kind {
        return Err(RequestConflict);
      }
      if !pending.request.controllable {
        return Err(NotControllable);
      }
      return Ok(pending);
    }

    /** appserver.Client.Respond on the request's own connection; `writable` is whether that connection takes the
        message. */
    method WriteResponse(control: PendingControl, reply: Reply, ghost action: Action, writable: bool) returns (ok: bool)
      modifies this`outbox
      ensures ok <==> writable && control.appServerId != ""
      ensures outbox == if ok then old(outbox) + [ResponseOf(action, control, reply)] else old(outbox)
      ensures View() == old(View())
    {
      ok := writable && control.appServerId != "";
      if ok {
        outbox := outbox + [ResponseOf(action, control, reply)];
      }
    }

    /** What an action does when no other one on its request is in flight: it fails and changes nothing,
        or one exact response leaves and the request comes off the table. */
    twostate predicate Acted(action: Action, writable: bool, new r: Result<Action, ControlError>, now: int)
      reads this, subs
    {
      match Check(old(pendingRequests), action)
      case Err(e) => r == Err(e) && outbox == old(outbox) && View() == old(View())
      case Ok((control, reply)) =>
        if !writable || control.appServerId == "" then
          r == Err(AppServerFailed) && outbox == old(outbox) && View() == old(View())
        else
          && r == Ok(action) && outbox == old(outbox) + [ResponseOf(action, control, reply)]
          && action.requestId in old(pendingRequests)
          && ExactResponse(ResponseOf(action, control, reply), old(pendingRequests)[action.requestId])
          && Next(old(View()), Finish(action.requestId, control), now, View())
    }

    lemma PassedIsExact(action: Action)
      requires Valid()
      ensures Check(pendingRequests, action).Ok? ==>
                && action.requestId in pendingRequests
                && var (control, reply) := Check(pendingRequests, action).value;
                   ExactResponse(ResponseOf(action, control, reply), pendingRequests[action.requestId])
    {
      hide Check, ExactResponse;
      TableKeys(View());
      CheckedIsExact(pendingRequests, action);
    }

    /** resolveApproval, for Approve and Reject. */
    method ResolveApproval(action: Action, writable: bool, now: int, uptime: int)
        returns (r: Result<Action, ControlError>)
      requires Valid() && !action.SubmitInput?
      modifies this, subs
      ensures Valid() && Fed() && Acted(action, writable, r, now)
    {
      hide View, Inv, Next, Window, OfferAll, Verdict, ExactResponse;
      PassedIsExact(action);
      NothingTold();
      var pending := LookupPending(action.requestId, action.threadId, action.turnId, Approval);
      if pending.Err? {
        return Err(pending.error);
      }
      var control, decision := pending.value, Verdict(action);
      if |control.request.availableDecisions| > 0 && decision !in control.request.availableDecisions {
        return Err(RequestConflict);
      }
      var sent := WriteResponse(control, Decision(decision), action, writable);
      if !sent {
        return Err(AppServerFailed);
      }
      FinishPending(action.requestId, control, now, uptime);
      return Ok(action);
    }

    method SubmitInput(action: Action, writable: bool, now: int, uptime: int) returns (r: Result<Action, ControlError>)
      requires Valid() && action.SubmitInput?
      modifies this, subs
      ensures Valid() && Fed() && Acted(action, writable, r, now)
    {
      hide View, Inv, Next, Window, OfferAll, Answer, ExactResponse;
      PassedIsExact(action);
      NothingTold();
      var pending := LookupPending(action.requestId, action.threadId, action.turnId, Input);
      if pending.Err? {
        return Err(pending.error);
      }
      var reply := ReadAnswers(action.answers);
      if reply.Err? {
        return Err(reply.error);
      }
      var sent := WriteResponse(pending.value, reply.value, action, writable);
      if !sent {
        return Err(AppServerFailed);
      }
      FinishPending(action.requestId, pending.value, now, uptime);
      return Ok(action);
    }

    /** Interrupt; `accepted` is the app-server's answer to turn/interrupt. */
    method Interrupt(threadId: string, turnId: string, accepted: bool, now: int, uptime: int)
        returns (r: Result<(), ControlError>)
      requires Valid()
      modifies this, subs
      ensures Valid() && Fed() && outbox == old(outbox)
      ensures r.Ok? <==> threadId != "" && turnId != "" && old(client).Some? && accepted
      ensures threadId == "" || turnId == "" ==> r == Err(RequestConflict)
      ensures threadId != "" && turnId != "" && old(client) == None ==> r == Err(NoAppServer)
      ensures r.Ok? ==> Next(old(View()), Step.Interrupt(threadId, turnId), now, View())
      ensures r.Err? ==> View() == old(View())
    {
      hide View, Inv, Next, Window, OfferAll;
      NothingTold();
      if threadId == "" || turnId == "" {
        return Err(RequestConflict);
      }
      if client == None {
        return Err(NoAppServer);
      }
      if !accepted {
        return Err(AppServerFailed);
      }
      TurnInterrupted(threadId, turnId, now, uptime);
      return Ok(());
    }

    method InterruptThreads(threadId: string, turnId: string, now: int)
      modifies this`appThreads
      ensures |appThreads| == |old(appThreads)|
      ensures forall j :: 0 <= j < |appThreads| ==>
              appThreads[j] == InterruptThread(old(appThreads)[j], threadId, turnId, now)
    {
      for i := 0 to |appThreads|
        invariant |appThreads| == |old(appThreads)|
        invariant forall j :: 0 <= j < i ==> appThreads[j] == InterruptThread(old(appThreads)[j], threadId, turnId, now)
        invariant forall j :: i <= j < |appThreads| ==> appThreads[j] == old(appThreads)[j]
      {
        if appThreads[i].id == threadId {
          appThreads := appThreads[i := appThreads[i].(
            turnId := turnId, lastTurnStatus := Interrupted, state := Idle,
            stateSource := AppServerControl, stateConfidence := Exact, updatedAt := now)];
        }
      }
    }

    method TakeInterrupt(threadId: string, turnId: string, now: int)
      modifies this`appThreads, this`pendingRequests
      ensures View() == WithInterrupt(old(View()), threadId, turnId, now)
    {
      hide InterruptThread, OnTurn;
      InterruptThreads(threadId, turnId, now);
      pendingRequests := RemoveRequests(pendingRequests, (c: PendingControl) => OnTurn(c, threadId, turnId));
      assert appThreads == WithInterrupt(old(View()), threadId, turnId, now).appThreads;
    }

    method TurnInterrupted(threadId: string, turnId: string, now: int, uptime: int)
      requires Valid()
      modifies this, subs
      ensures Valid() && Fed() && outbox == old(outbox)
      ensures Next(old(View()), Step.Interrupt(threadId, turnId), now, View())
    {
      hide View, OfferAll, Updated, Enabled, Inv, BaseInv, Rebuilt, Window, WithInterrupt;
      ghost var before := View();
      AlwaysEnabled(before, Step.Interrupt(threadId, turnId));
      SectionEntered(before, Step.Interrupt(threadId, turnId), now);
      RemovalUpdates(before, now);
      TakeInterrupt(threadId, turnId, now);
      Conclude(now, uptime);
    }

    /** Nothing was sent since now. */
    twostate lemma NothingTold()
      requires broadcast == old(broadcast) && subs == old(subs)
      requires forall ch :: ch in subs ==> ch.buffer == old(ch.buffer) && ch.closed == old(ch.closed)
      ensures Fed()
    {
      assert broadcast[|broadcast|..] == [];
    }
  }

  /** The checking loop of SubmitInput. */
  method ReadAnswers(answers: map<string, seq<string>>) returns (r: Result<Reply, ControlError>)
    ensures r == Answer(answers)
  {
    if |answers| == 0 {
      return Err(RequestConflict);
    }
    var todo := answers.Keys;
    while todo != {}
      invariant todo <= answers.Keys
      invariant forall key :: key in answers && key !in todo ==> key != "" && answers[key] != []
    {
      var key :| key in todo;
      if key == "" || answers[key] == [] {
        return Err(RequestConflict);
      }
      todo := todo - {key};
    }
    return Ok(Answers(answers));
  }

  /** Which requests are recorded. */
  lemma Understood(rpc: RpcMethod, params: RequestParams)
    ensures DescribeRequest(rpc, params).Some? <==> params.threadId != "" && rpc != OtherMethod
  {
  }

  lemma AlwaysEnabled(s: MonitorState, step: Step)
    requires step.ClearClient? || step.StatusChanged? || step.TurnChanged? || step.Resolved? || step.ServerRequest?
          || step.Interrupt? || step.Finish? || step.Hook?
    ensures Enabled(s, step)
  {
  }

  /** Deleting from the table while ranging over it. */
  method RemoveRequests(table: RequestTable, drop: PendingControl -> bool) returns (rest: RequestTable)
    ensures rest == map key | key in table && !drop(table[key]) :: table[key]
  {
    rest := table;
    var todo := table.Keys;
    while todo != {}
      invariant todo <= table.Keys
      invariant forall key :: key in rest <==> key in table && (key in todo || !drop(table[key]))
      invariant forall key :: key in rest ==> rest[key] == table[key]
    {
      var key :| key in todo;
      todo := todo - {key};
      if drop(table[key]) {
        rest := rest - {key};
      }
    }
  }

  /** The first index of a thread id, or the length. */
  method FindThread(threads: seq<Thread>, id: string) returns (index: nat)
    ensures index == IndexOf(threads, id)
  {
    index := 0;
    while index < |threads|
      invariant index <= |threads|
      invariant IndexOf(threads, id) == index + IndexOf(threads[index..], id)
    {
      if threads[index].id == id {
        return;
      }
      index := index + 1;
    }
  }

  lemma TableKeys(s: MonitorState)
    requires BaseInv(s)
    ensures forall key :: key in s.pendingRequests ==> s.pendingRequests[key].request.id == key
  {
  }

  lemma SectionEntered(s: MonitorState, step: Step, now: int)
    requires Inv(s) && Enabled(s, step)
    ensures BaseInv(Updated(s, step, now))
  {
    SectionKeepsBase(s, step, now);
  }
}
