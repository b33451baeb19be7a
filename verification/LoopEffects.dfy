/** What the app-server loop and the filesystem loop make the snapshot say, apart from the threads
    (agent/internal/monitor/monitor.go). */
module LoopEffects {
  import opened Wrappers
  import opened Model
  import opened Hooks
  import opened Hierarchy
  import opened Decorate
  import opened Transitions
  import opened Stream
  import opened MonitorState
  import opened MonitorProofs
  import opened MonitorEffects

  /** A rebuild leaves alone what it does not compute. */
  lemma RebuiltKeeps(s: MonitorState, s': MonitorState, now: int)
    requires Rebuilt(s, s', now)
    ensures s'.snapshot.codex == s.snapshot.codex.(visibility := s'.snapshot.codex.visibility)
    ensures s'.snapshot.appServer == s.snapshot.appServer && s'.client == s.client && s'.phase == s.phase
    ensures s'.appThreads == s.appThreads && s'.fsThreads == s.fsThreads
    ensures s'.usage == s.usage && s'.rateLimits == s.rateLimits && s'.requestSequence == s.requestSequence
  {
    hide RebuiltWith, IsStale, SummaryOf, LiveHooks;
    RebuiltClient(s, s', now);
    var uptime, choice, threads, requests :| RebuiltWith(s, s', now, uptime, choice, threads, requests);
    RebuiltFields(s, s', now, uptime, choice, threads, requests);
  }

  /** What a rebuild shows of its inputs: nothing reached lately makes it stale, and without a connection whatever the
      filesystem tells is a fallback. */
  lemma RebuiltShowsInputs(s: MonitorState, s': MonitorState, now: int)
    requires Rebuilt(s, s', now)
    ensures s'.snapshot.generatedAt == now
    ensures s'.snapshot.usage == s.usage && s'.snapshot.rateLimits == s.rateLimits
    ensures s'.snapshot.hooks.activeSessions == |s'.hookSessions|
    ensures s'.snapshot.stale <==>
            && s.snapshot.codex.connection != Connected
            && (s.fsThreads == [] || now - s.fsThreads[0].updatedAt > s.cfg.staleAfter)
    ensures var was, shown := s.snapshot.codex, s'.snapshot.codex.visibility;
            if s.fsThreads == [] || was.visibility == SharedAppServer then shown == was.visibility
            else if was.connection == Connected then shown == AgentOwned
            else if was.visibility == Unavailable then shown == FilesystemFallback
            else shown == was.visibility
  {
    hide RebuiltWith, SummaryOf, LiveHooks;
    var uptime, choice, threads, requests :| RebuiltWith(s, s', now, uptime, choice, threads, requests);
    RebuiltFields(s, s', now, uptime, choice, threads, requests);
  }

  /** A hook session is kept as long as it lives, unaltered. */
  lemma RebuiltSessions(s: MonitorState, s': MonitorState, now: int, session: string)
    requires Rebuilt(s, s', now)
    ensures session in s'.hookSessions <==> session in LiveHooks(s.cfg.hooks, s.hookSessions, now)
    ensures session in s'.hookSessions ==>
            session in s.hookSessions && s'.hookSessions[session] == s.hookSessions[session]
  {
    hide RebuiltWith, LiveHooks;
    LiveIsSession(s, now, session);
    var uptime, choice, threads, requests :| RebuiltWith(s, s', now, uptime, choice, threads, requests);
    RebuiltFields(s, s', now, uptime, choice, threads, requests);
  }

  lemma {:induction false} IdsOfDistinct(requests: seq<PendingRequest>)
    requires forall i, j :: 0 <= i < j < |requests| ==> requests[i].id != requests[j].id
    ensures |set r | r in requests :: r.id| == |requests|
  {
    if requests != [] {
      var front, last := requests[..|requests| - 1], requests[|requests| - 1];
      IdsOfDistinct(front);
      assert requests == front + [last];
      assert (set r | r in requests :: r.id) == (set r | r in front :: r.id) + {last.id};
    }
  }

  lemma SameSizeSubset(a: set<string>, b: set<string>)
    requires a <= b && |a| == |b|
    ensures a == b
  {
    if a != b {
      SubsetIsSmaller(a, b);
    }
  }

  /** A list of the table lists every entry. */
  lemma ListsAll(requests: seq<PendingRequest>, table: RequestTable)
    requires Lists(requests, table) && forall key :: key in table ==> table[key].request.id == key
    ensures forall key :: key in table ==> table[key].request in requests
  {
    assert forall i, j :: 0 <= i < j < |requests| ==> requests[i].id != requests[j].id by {
      var byId := (r: PendingRequest) => r.id;
      assert forall i :: 0 <= i < |requests| ==> byId(requests[i]) == requests[i].id;
    }
    IdsOfDistinct(requests);
    SameSizeSubset(set r | r in requests :: r.id, table.Keys);
    forall key | key in table ensures table[key].request in requests {
      assert key in (set r | r in requests :: r.id);
    }
  }

  /** The snapshot lists exactly the pending requests. */
  lemma RequestsAreListed(s: MonitorState, s': MonitorState, now: int)
    requires BaseInv(s) && Rebuilt(s, s', now)
    ensures forall r :: r in s'.snapshot.pendingRequests <==>
                        r.id in s'.pendingRequests && s'.pendingRequests[r.id].request == r
  {
    hide LogInv, FromSources, IsChoice, Enumerates, AfterRebuild, Lists, LiveHooks;
    var uptime, choice, threads, requests :| RebuiltWith(s, s', now, uptime, choice, threads, requests);
    RebuiltFields(s, s', now, uptime, choice, threads, requests);
    hide RebuiltWith, ComposeThreads;
    ShowsListed(s, now, uptime, threads, requests);
    ListsAll(requests, s.pendingRequests);
    ListsOnly(requests, s.pendingRequests);
  }

  lemma ListsOnly(requests: seq<PendingRequest>, table: RequestTable)
    requires Lists(requests, table)
    ensures forall r :: r in requests ==> r.id in table && table[r.id].request == r
  {
  }

  lemma ShowsListed(s: MonitorState, now: int, uptime: int, threads: seq<Thread>, requests: seq<PendingRequest>)
    ensures RebuiltSnapshot(s, now, uptime, threads, requests).pendingRequests == requests
  {
  }

  // ---- The app-server loop ----

  /** While it connects the agent says so, and no error; when that or a connection fails it says with what. */
  lemma ConnectionIsShown(s: MonitorState, step: Step, now: int, s': MonitorState)
    requires Next(s, step, now, s')
    ensures step.Dial? ==> s'.snapshot.codex.connection == Connecting && s'.snapshot.codex.lastError == ""
    ensures step.DialFailed? ==>
              s'.snapshot.codex.connection == ConnectionError && s'.snapshot.codex.lastError == step.lastError
    ensures step.Disconnect? ==>
              s'.snapshot.codex.connection == Disconnected && s'.snapshot.codex.lastError == step.lastError
    ensures step.Dial? || step.DialFailed? || step.Disconnect? ==>
              s'.appThreads == s.appThreads && s'.client == s.client
              && s'.snapshot.codex.consecutiveFailures == s.snapshot.codex.consecutiveFailures
  {
    hide Rebuilt;
    if step.Dial? || step.DialFailed? || step.Disconnect? {
      RebuiltKeeps(Updated(s, step, now), s', now);
    }
  }

  /** A new connection is the client from then on, and the snapshot says who answered. */
  lemma ClientIsShown(s: MonitorState, client: ClientId, appServer: string, now: int, s': MonitorState)
    requires Inv(s) && Next(s, Connect(client, appServer), now, s')
    ensures s'.client == Some(client) && s'.snapshot.appServer == appServer
    ensures s'.snapshot.codex.connection == Connected && s'.snapshot.codex.visibility == AgentOwned
    ensures s'.snapshot.codex.lastError == "" && !s'.snapshot.stale
  {
    hide Rebuilt, Inv, Next, WithRecovery;
    Entered(s, Connect(client, appServer), now, s');
    LoopUpdates(s, now);
    var mid := WithClient(s, client, appServer, now);
    RecoveryKeeps(WithConnected(s, client, appServer), s.snapshot.codex.connection, now);
    RebuiltKeeps(mid, s', now);
    RebuiltShowsInputs(mid, s', now);
  }

  lemma RecoveryKeeps(s: MonitorState, previous: Connection, now: int)
    ensures WithRecovery(s, previous, now) ==
            s.(log := WithRecovery(s, previous, now).log, broadcast := WithRecovery(s, previous, now).broadcast)
  {
  }

  /** The recovery event is emitted for just the three states a connection can be recovered from. */
  lemma RecoveryInWords(s: MonitorState, previous: Connection, now: int)
    ensures var log := WithRecovery(s, previous, now).log;
            if previous in {Recovering, Disconnected, ConnectionError} then
              && |log| == |s.log| + 1 && log[..|s.log|] == s.log
              && log[|s.log|].kind == AgentRecovered && log[|s.log|].occurredAt == now
              && log[|s.log|].sequence == |s.log| + 1 && log[|s.log|].threadId == ""
            else log == s.log
  {
  }

  /** A refresh shows what the app-server answered and when; only one without failed reads clears the error. */
  lemma RefreshIsShown(s: MonitorState, threads: seq<Thread>, usage: Payload, rateLimits: Payload, failed: bool,
                       now: int, s': MonitorState)
    requires Inv(s) && Next(s, Refresh(threads, usage, rateLimits, failed), now, s')
    ensures s'.appThreads == threads && s'.snapshot.usage == usage && s'.snapshot.rateLimits == rateLimits
    ensures var was, shown := s.snapshot.codex, s'.snapshot.codex;
            && shown.lastSuccessAt == Some(now)
            && (if failed then shown.connection == was.connection && shown.lastError == was.lastError
                else shown.connection == Connected && shown.lastError == "")
            && shown.consecutiveFailures == was.consecutiveFailures && shown.lastRecoveryAt == was.lastRecoveryAt
  {
    hide Rebuilt, Inv, Next;
    Entered(s, Refresh(threads, usage, rateLimits, failed), now, s');
    LoopUpdates(s, now);
    var mid := WithRefresh(s, threads, usage, rateLimits, failed, now);
    RebuiltKeeps(mid, s', now);
    RebuiltShowsInputs(mid, s', now);
  }

  /** Failed account reads are counted until one succeeds. From the configured number on, or the second if none is
      configured, each failure makes the agent start over. */
  lemma AccountResultIsShown(s: MonitorState, failed: bool, lastError: string, now: int, s': MonitorState)
    requires Next(s, AccountResult(failed, lastError), now, s')
    ensures var was, shown := s.snapshot.codex, s'.snapshot.codex;
            var threshold := if s.cfg.failureThreshold > 0 then s.cfg.failureThreshold else 2;
            && shown.consecutiveFailures == (if failed then was.consecutiveFailures + 1 else 0)
            && shown.lastError == (if failed then lastError else was.lastError)
            && (if failed && was.consecutiveFailures + 1 >= threshold then
                  shown.connection == Recovering && shown.lastRecoveryAt == Some(now)
                else shown.connection == was.connection && shown.lastRecoveryAt == was.lastRecoveryAt)
            && shown.visibility == was.visibility && shown.lastSuccessAt == was.lastSuccessAt
            && s'.snapshot == s.snapshot.(codex := shown)
  {
  }

  // ---- The filesystem loop ----

  /** What the filesystem told is kept, and shown by itself while the app-server has never been reached. */
  lemma FilesystemIsShown(s: MonitorState, threads: seq<Thread>, now: int, s': MonitorState)
    requires Next(s, Step.CollectFilesystem(threads), now, s')
    ensures s'.fsThreads == threads && s'.appThreads == s.appThreads
    ensures threads != [] && s.snapshot.codex.visibility == Unavailable && s.snapshot.codex.connection != Connected ==>
              s'.snapshot.codex.visibility == FilesystemFallback
  {
    hide Rebuilt, Next;
    Entered(s, Step.CollectFilesystem(threads), now, s');
    LoopUpdates(s, now);
    RebuiltKeeps(WithFilesystem(s, threads), s', now);
    RebuiltShowsInputs(WithFilesystem(s, threads), s', now);
  }
}
