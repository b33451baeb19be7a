/** Hook observations override thread states until they expire
    (agent/internal/monitor/hooks.go). */
module Hooks {
  import opened Model
  import opened Merge

  datatype HookObservation = HookObservation(
    turnId: string, cwd: string, eventName: string, state: State, receivedAt: int)

  /** Configured lifetimes in nanoseconds; a non-positive one means the default. */
  datatype HookConfig = HookConfig(runningTtl: int, idleTtl: int, attentionTtl: int)

  const MINUTE: int := 60 * 1_000_000_000

  function HookTtl(cfg: HookConfig, state: State): (ttl: int)
    ensures ttl > 0
  {
    match state
    case Idle => if cfg.idleTtl > 0 then cfg.idleTtl else MINUTE
    case WaitingApproval => if cfg.attentionTtl > 0 then cfg.attentionTtl else 5 * MINUTE
    case WaitingInput => if cfg.attentionTtl > 0 then cfg.attentionTtl else 5 * MINUTE
    case _ => if cfg.runningTtl > 0 then cfg.runningTtl else 10 * MINUTE
  }

  predicate Expired(cfg: HookConfig, observation: HookObservation, now: int) {
    now - observation.receivedAt >= HookTtl(cfg, observation.state)
  }

  function LiveHooks(cfg: HookConfig, hooks: map<string, HookObservation>, now: int): map<string, HookObservation> {
    map session | session in hooks && !Expired(cfg, hooks[session], now) :: hooks[session]
  }

  /** A thread known only from a hook. */
  function HookThread(session: string, observation: HookObservation): Thread {
    BlankThread(session).(cwd := observation.cwd, source := "codex_hook")
  }

  function Observe(thread: Thread, observation: HookObservation): Thread {
    thread.(
    turnId := observation.turnId,
    cwd := if thread.cwd == "" then observation.cwd else thread.cwd,
    state := observation.state,
    stateSource := CodexHook,
    stateConfidence := EventDerived,
    lastHookEvent := observation.eventName,
    updatedAt := if observation.receivedAt > thread.updatedAt then observation.receivedAt else thread.updatedAt)
  }

  /** How long an observation counts, in the configured or else the default lifetime of its state. */
  lemma LivesExactly(cfg: HookConfig, hooks: map<string, HookObservation>, now: int, session: string)
    ensures var nanos := 1_000_000_000;
            session in LiveHooks(cfg, hooks, now) <==>
              && session in hooks
              && var o := hooks[session];
                 var age := now - o.receivedAt;
                 if o.state == Idle then age < if cfg.idleTtl > 0 then cfg.idleTtl else 60 * nanos
                 else if o.state == WaitingApproval || o.state == WaitingInput then
                   age < if cfg.attentionTtl > 0 then cfg.attentionTtl else 300 * nanos
                 else age < if cfg.runningTtl > 0 then cfg.runningTtl else 600 * nanos
    ensures session in LiveHooks(cfg, hooks, now) ==> LiveHooks(cfg, hooks, now)[session] == hooks[session]
  {
  }

  /** A thread as an observation shows it: turn, state and event are the observation's, the directory only where
      there was none, the time the later one, and all else as it was. */
  predicate ShownBy(t: Thread, o: HookObservation, was: Thread) {
    && t.turnId == o.turnId && t.state == o.state && t.lastHookEvent == o.eventName
    && t.stateSource == CodexHook && t.stateConfidence == EventDerived
    && t.cwd == (if was.cwd != "" then was.cwd else o.cwd)
    && t.updatedAt >= was.updatedAt && t.updatedAt >= o.receivedAt && t.updatedAt in {was.updatedAt, o.receivedAt}
    && t.(turnId := was.turnId, state := was.state, lastHookEvent := was.lastHookEvent, stateSource := was.stateSource,
          stateConfidence := was.stateConfidence, cwd := was.cwd, updatedAt := was.updatedAt) == was
  }

  lemma ObservedIsShown(was: Thread, o: HookObservation)
    ensures ShownBy(Observe(was, o), o, was)
  {
  }

  /** A thread nothing else knows has the session's id and the observation's directory. */
  lemma HookOnlyThread(session: string, o: HookObservation)
    ensures var t := HookThread(session, o);
            && t.id == session && t.cwd == o.cwd && t.source == "codex_hook"
            && t.parentThreadId == "" && t.requestId == "" && !t.attentionType.Some?
            && t.name == "" && t.preview == "" && t.lastTurnStatus == NoTurn && !t.loaded && !t.controllable
  {
  }

  /** What the hook pass makes of each thread, whatever order the hooks are visited in. */
  function HookedMap(m: map<string, Thread>, live: map<string, HookObservation>): map<string, Thread> {
    map id | id in m.Keys + live.Keys ::
      if id in live then Observe(if id in m then m[id] else HookThread(id, live[id]), live[id]) else m[id]
  }

  lemma NoHooks(m: map<string, Thread>)
    ensures HookedMap(m, map[]) == m
  {
  }

  lemma ObserveOneMore(m: map<string, Thread>, live: map<string, HookObservation>, session: string, o: HookObservation)
    requires session !in live
    ensures HookedMap(m, live[session := o])
         == HookedMap(m, live)[session :=
                               Observe(if session in HookedMap(m, live) then HookedMap(m, live)[session]
                                       else HookThread(session, o), o)]
  {
  }

  /** The body of the pass for one live observation. */
  method VisitHook(input: seq<Thread>, index: map<string, int>, session: string, observation: HookObservation,
                   ghost m: map<string, Thread>, ghost live: map<string, HookObservation>)
    returns (threads: seq<Thread>, byId: map<string, int>)
    requires session !in live
    requires Indexed(input, index, HookedMap(m, live))
    ensures Indexed(threads, byId, HookedMap(m, live[session := observation]))
  {
    threads, byId := Rewrite(input, index, HookThread(session, observation), (t: Thread) => Observe(t, observation),
                             HookedMap(m, live));
    ObserveOneMore(m, live, session, observation);
  }

  /** Mid-pass: `live` are the unexpired observations visited, and the table has lost the expired ones. */
  ghost predicate Swept(cfg: HookConfig, sessions: map<string, HookObservation>, now: int,
                        todo: set<string>, live: map<string, HookObservation>,
                            remaining: map<string, HookObservation>) {
    && todo <= sessions.Keys
    && (forall s :: s in live <==> s in sessions && s !in todo && !Expired(cfg, sessions[s], now))
    && (forall s :: s in live ==> live[s] == sessions[s])
    && (forall s :: s in remaining <==> s in todo || s in live)
    && (forall s :: s in remaining ==> remaining[s] == sessions[s])
  }

  lemma SweepOne(cfg: HookConfig, sessions: map<string, HookObservation>, now: int,
                 todo: set<string>, live: map<string, HookObservation>, remaining: map<string, HookObservation>,
                     s: string)
    requires Swept(cfg, sessions, now, todo, live, remaining) && s in todo
    ensures Expired(cfg, sessions[s], now) ==> Swept(cfg, sessions, now, todo - {s}, live, remaining - {s})
    ensures !Expired(cfg, sessions[s], now) ==>
              s !in live && Swept(cfg, sessions, now, todo - {s}, live[s := sessions[s]], remaining)
  {
  }

  lemma SweepDone(cfg: HookConfig, sessions: map<string, HookObservation>, now: int,
                  live: map<string, HookObservation>, remaining: map<string, HookObservation>)
    requires Swept(cfg, sessions, now, {}, live, remaining)
    ensures remaining == live == LiveHooks(cfg, sessions, now)
  {
  }

  /** The pass itself: expired observations are deleted from the table while it is ranged over. */
  method ApplyHooks(cfg: HookConfig, input: seq<Thread>, sessions: map<string, HookObservation>, now: int,
                    ghost m: map<string, Thread>)
    returns (threads: seq<Thread>, remaining: map<string, HookObservation>, active: nat)
    requires Enumerates(input, m)
    ensures remaining == LiveHooks(cfg, sessions, now)
    ensures active == |remaining|
    ensures Enumerates(threads, HookedMap(m, remaining))
    ensures NewestFirst(threads)
  {
    threads, remaining, active := input, sessions, 0;
    var byId := IndexById(threads, m);
    var todo := sessions.Keys;
    ghost var live: map<string, HookObservation> := map[];
    NoHooks(m);
    while todo != {}
      invariant Swept(cfg, sessions, now, todo, live, remaining)
      invariant active == |live|
      invariant Indexed(threads, byId, HookedMap(m, live))
    {
      var session :| session in todo;
      SweepOne(cfg, sessions, now, todo, live, remaining, session);
      todo := todo - {session};
      if Expired(cfg, sessions[session], now) {
        remaining := remaining - {session};
      } else {
        active := active + 1;
        threads, byId := VisitHook(threads, byId, session, sessions[session], m, live);
        live := live[session := sessions[session]];
      }
    }
    SweepDone(cfg, sessions, now, live, remaining);
    IndexedEnumerates(threads, byId, HookedMap(m, live));
    SortEnumerates(threads, HookedMap(m, live));
    threads := SortThreads(threads);
  }
}
