/** Task events as differences between successive thread maps
    (agent/internal/monitor/events.go, emitTransitionEventsLocked and transitionEventType). */
module Transitions {
  import opened Wrappers
  import opened Model

  /** None is the empty event type: nothing is reported. */
  function TransitionEventType(previous: State, current: Thread, existed: bool): Option<EventType> {
    match current.state
    case WaitingApproval => Some(ApprovalRequired)
    case WaitingInput => Some(InputRequired)
    case Error => Some(TaskFailed)
    case Running =>
      if existed && (previous == WaitingApproval || previous == WaitingInput || previous == Idle) then Some(TaskResumed)
      else Some(TaskStarted)
    case Idle =>
      if !existed then None
      else if current.lastTurnStatus == Interrupted then Some(TaskInterrupted)
      else if current.lastTurnStatus == Failed then Some(TaskFailed)
      else if previous == Running || previous == WaitingApproval || previous == WaitingInput then Some(TaskCompleted)
      else None
    case _ => None
  }

  function DisplayThreadName(t: Thread): string {
    if t.name != "" then t.name else if t.preview != "" then t.preview else t.id
  }

  function PreviousState(last: map<string, Thread>, id: string): State {
    if id in last then last[id].state else NoState
  }

  predicate Unchanged(last: map<string, Thread>, t: Thread) {
    t.id in last && last[t.id].state == t.state && last[t.id].requestId == t.requestId
  }

  /** The event a thread of the new list gives rise to; its number is assigned when it is emitted. */
  function TransitionEvent(last: map<string, Thread>, t: Thread, now: int): Option<TaskEvent> {
    if Unchanged(last, t) then None
    else
      match TransitionEventType(PreviousState(last, t.id), t, t.id in last)
      case None => None
      case Some(kind) =>
        Some(TaskEvent(0, kind, t.id, t.turnId, t.parentThreadId, t.rootThreadId, t.threadRole, t.agentNickname,
                       DisplayThreadName(t), PreviousState(last, t.id), t.state, t.stateSource, t.stateConfidence,
                       t.requestId, t.controllable, now))
  }

  function Events(last: map<string, Thread>, threads: seq<Thread>, now: int): seq<TaskEvent> {
    if threads == [] then []
    else
      var before := Events(last, threads[..|threads| - 1], now);
      match TransitionEvent(last, threads[|threads| - 1], now)
      case None => before
      case Some(event) => before + [event]
  }

  function Append(log: seq<TaskEvent>, event: TaskEvent): seq<TaskEvent> {
    log + [event.(sequence := |log| + 1)]
  }

  function AppendAll(log: seq<TaskEvent>, events: seq<TaskEvent>): (r: seq<TaskEvent>)
    ensures |r| == |log| + |events| && r[..|log|] == log
  {
    if events == [] then log else Append(AppendAll(log, events[..|events| - 1]), events[|events| - 1])
  }

  ghost predicate NumberedLog(log: seq<TaskEvent>) {
    forall i :: 0 <= i < |log| ==> log[i].sequence == i + 1
  }

  // ---- What the log says about a thread ----

  function LatestEvent(log: seq<TaskEvent>, id: string): Option<TaskEvent> {
    if log == [] then None
    else if log[|log| - 1].threadId == id then Some(log[|log| - 1])
    else LatestEvent(log[..|log| - 1], id)
  }

  /** The states that are always worth an event. */
  predicate Notable(st: State) {
    st == Running || st == WaitingApproval || st == WaitingInput || st == Error
  }

  /** The latest event of the thread tells its state and request. */
  predicate Reported(log: seq<TaskEvent>, t: Thread) {
    var e := LatestEvent(log, t.id);
    e.Some? && e.value.toState == t.state && e.value.requestId == t.requestId
  }

  /** No event was ever due: the thread is as the baseline showed it. */
  predicate AsInBaseline(log: seq<TaskEvent>, baseline: map<string, Thread>, t: Thread) {
    LatestEvent(log, t.id) == None && Unchanged(baseline, t)
  }

  ghost predicate Faithful(log: seq<TaskEvent>, baseline: map<string, Thread>, m: map<string, Thread>) {
    forall id :: id in m && Notable(m[id].state) ==> Reported(log, m[id]) || AsInBaseline(log, baseline, m[id])
  }

  lemma LogOfOneMore(log: seq<TaskEvent>, last: map<string, Thread>, front: seq<Thread>, t: Thread, now: int)
    ensures var before := AppendAll(log, Events(last, front, now));
            AppendAll(log, Events(last, front + [t], now)) ==
            match TransitionEvent(last, t, now)
            case None => before
            case Some(event) => Append(before, event)
  {
    assert (front + [t])[..|front + [t]| - 1] == front;
    if TransitionEvent(last, t, now).Some? {
      var events := Events(last, front + [t], now);
      assert events[..|events| - 1] == Events(last, front, now);
    }
  }

  lemma LatestOfAppend(log: seq<TaskEvent>, event: TaskEvent, id: string)
    ensures LatestEvent(Append(log, event), id) ==
            if event.threadId == id then Some(event.(sequence := |log| + 1)) else LatestEvent(log, id)
  {
    var longer := Append(log, event);
    assert longer[..|longer| - 1] == log;
  }

  /** Threads without an event leave the latest event of an id alone. */
  lemma {:induction false} LatestKept(log: seq<TaskEvent>, last: map<string, Thread>, threads: seq<Thread>, now: int,
                                      id: string)
    requires forall i :: 0 <= i < |threads| && threads[i].id == id ==> TransitionEvent(last, threads[i], now) == None
    ensures LatestEvent(AppendAll(log, Events(last, threads, now)), id) == LatestEvent(log, id)
  {
    if threads != [] {
      var front, t := threads[..|threads| - 1], threads[|threads| - 1];
      assert threads == front + [t];
      LatestKept(log, last, front, now, id);
      LogOfOneMore(log, last, front, t, now);
      if TransitionEvent(last, t, now).Some? {
        LatestOfAppend(AppendAll(log, Events(last, front, now)), TransitionEvent(last, t, now).value, id);
      }
    }
  }

  /** The event of a thread is the latest of its id once the whole list is done. */
  lemma {:induction false} LatestSet(log: seq<TaskEvent>, last: map<string, Thread>, threads: seq<Thread>, now: int,
                                     i: nat)
    requires UniqueIds(threads) && i < |threads| && TransitionEvent(last, threads[i], now).Some?
    ensures var e := LatestEvent(AppendAll(log, Events(last, threads, now)), threads[i].id);
            e.Some? && e.value.(sequence := 0) == TransitionEvent(last, threads[i], now).value
    decreases |threads|
  {
    var front, t := threads[..|threads| - 1], threads[|threads| - 1];
    assert threads == front + [t];
    LogOfOneMore(log, last, front, t, now);
    if i < |front| {
      LatestSet(log, last, front, now, i);
    }
    if TransitionEvent(last, t, now).Some? {
      LatestOfAppend(AppendAll(log, Events(last, front, now)), TransitionEvent(last, t, now).value, threads[i].id);
    }
  }

  lemma ThreadReported(log: seq<TaskEvent>, baseline: map<string, Thread>, last: map<string, Thread>,
                       threads: seq<Thread>, now: int, i: nat)
    requires UniqueIds(threads) && i < |threads| && Notable(threads[i].state)
    requires Unchanged(last, threads[i]) ==> Reported(log, threads[i]) || AsInBaseline(log, baseline, threads[i])
    ensures var after := AppendAll(log, Events(last, threads, now));
            Reported(after, threads[i]) || AsInBaseline(after, baseline, threads[i])
  {
    if Unchanged(last, threads[i]) {
      LatestKept(log, last, threads, now, threads[i].id);
    } else {
      LatestSet(log, last, threads, now, i);
    }
  }

  /** The log stays a faithful view: whatever the new list shows in a notable state,
      the log now ends with, unless it has stood still since the baseline. */
  lemma FaithfulKept(log: seq<TaskEvent>, baseline: map<string, Thread>, last: map<string, Thread>,
                     threads: seq<Thread>, m: map<string, Thread>, now: int)
    requires Faithful(log, baseline, last) && Enumerates(threads, m)
    requires forall id :: id in last ==> last[id].id == id
    ensures Faithful(AppendAll(log, Events(last, threads, now)), baseline, m)
  {
    forall id | id in m && Notable(m[id].state)
      ensures var after := AppendAll(log, Events(last, threads, now));
              Reported(after, m[id]) || AsInBaseline(after, baseline, m[id])
    {
      var i :| 0 <= i < |threads| && threads[i] == m[id];
      ThreadReported(log, baseline, last, threads, now, i);
    }
  }

  /** Each event tells a real change of one listed thread. */
  lemma {:induction false} EventIsChange(last: map<string, Thread>, threads: seq<Thread>, now: int, e: TaskEvent)
      returns (i: nat)
    requires e in Events(last, threads, now)
    ensures i < |threads| && threads[i].id == e.threadId && TransitionEvent(last, threads[i], now) == Some(e)
  {
    var front, t := threads[..|threads| - 1], threads[|threads| - 1];
    if e in Events(last, front, now) {
      i := EventIsChange(last, front, now, e);
    } else {
      i := |threads| - 1;
    }
  }

  /** A change nobody is told about: into an unknown state, into idleness at first sight, or into idleness from
      anything but activity when the turn was neither interrupted nor failed. */
  predicate Silent(last: map<string, Thread>, t: Thread) {
    || t.state == Unknown || t.state == NoState
    || (t.state == Idle && t.id !in last)
    || (t.state == Idle && t.lastTurnStatus != Interrupted && t.lastTurnStatus != Failed
        && !ActiveState(PreviousState(last, t.id)))
  }

  /** What each kind of event stands for, in terms of the states it names and how the last turn ended. */
  predicate KindFits(e: TaskEvent, status: TurnStatus) {
    && (e.kind == ApprovalRequired <==> e.toState == WaitingApproval)
    && (e.kind == InputRequired <==> e.toState == WaitingInput)
    && (e.kind == TaskResumed <==> e.toState == Running && e.fromState in {WaitingApproval, WaitingInput, Idle})
    && (e.kind == TaskStarted <==> e.toState == Running && e.fromState !in {WaitingApproval, WaitingInput, Idle})
    && (e.kind == TaskInterrupted <==> e.toState == Idle && status == Interrupted)
    && (e.kind == TaskFailed <==> e.toState == Error || (e.toState == Idle && status == Failed))
    && (e.kind == TaskCompleted <==> e.toState == Idle && status != Interrupted && status != Failed)
    && (e.kind == TaskCompleted ==> e.fromState in {Running, WaitingApproval, WaitingInput})
    && e.kind != AgentRecovered
  }

  /** An event says of its thread what the list it was emitted for says. */
  predicate Describes(e: TaskEvent, t: Thread) {
    && e.threadId == t.id && e.turnId == t.turnId && e.requestId == t.requestId && e.controllable == t.controllable
    && e.parentThreadId == t.parentThreadId && e.rootThreadId == t.rootThreadId && e.threadRole == t.threadRole
    && e.agentNickname == t.agentNickname && e.toState == t.state
    && e.stateSource == t.stateSource && e.stateConfidence == t.stateConfidence
    && (t.name != "" ==> e.taskName == t.name)
    && (t.name == "" && t.preview != "" ==> e.taskName == t.preview)
    && (t.name == "" && t.preview == "" ==> e.taskName == t.id)
  }

  /** An event is due exactly for a change that is not silent; it describes its thread at that time, and its kind
      fits. */
  lemma EventIsDue(last: map<string, Thread>, t: Thread, now: int)
    ensures TransitionEvent(last, t, now).Some? <==> !Unchanged(last, t) && !Silent(last, t)
    ensures TransitionEvent(last, t, now).Some? ==>
              var e := TransitionEvent(last, t, now).value;
              KindFits(e, t.lastTurnStatus) && Describes(e, t) && e.occurredAt == now
  {
  }

  lemma {:induction false} EventIsTold(last: map<string, Thread>, threads: seq<Thread>, now: int, i: nat)
    requires i < |threads| && TransitionEvent(last, threads[i], now).Some?
    ensures TransitionEvent(last, threads[i], now).value in Events(last, threads, now)
    decreases |threads|
  {
    if i < |threads| - 1 {
      EventIsTold(last, threads[..|threads| - 1], now, i);
    }
  }

  ghost predicate OncePerThread(events: seq<TaskEvent>) {
    forall j, k :: 0 <= j < k < |events| ==> events[j].threadId != events[k].threadId
  }

  /** No thread has two events in one rebuild. */
  lemma {:induction false} OneEventPerThread(last: map<string, Thread>, threads: seq<Thread>, now: int)
    requires UniqueIds(threads)
    ensures OncePerThread(Events(last, threads, now))
  {
    if threads != [] {
      var front, t := threads[..|threads| - 1], threads[|threads| - 1];
      OneEventPerThread(last, front, now);
      var before := Events(last, front, now);
      forall j | 0 <= j < |before| ensures before[j].threadId != t.id {
        assert before[j] in before;
        var i := EventIsChange(last, front, now, before[j]);
        assert threads[i] == front[i];
      }
    }
  }

  /** Same states and requests, no events. */
  lemma {:induction false} NoChangeNoEvents(last: map<string, Thread>, threads: seq<Thread>, now: int)
    ensures (forall t :: t in threads ==> Unchanged(last, t)) ==> Events(last, threads, now) == []
    ensures (exists t :: t in threads && TransitionEvent(last, t, now).Some?) ==> Events(last, threads, now) != []
  {
    if threads != [] {
      var front, t := threads[..|threads| - 1], threads[|threads| - 1];
      assert threads == front + [t];
      NoChangeNoEvents(last, front, now);
    }
  }

  lemma {:induction false} AppendAllNumbers(log: seq<TaskEvent>, events: seq<TaskEvent>)
    requires NumberedLog(log)
    ensures NumberedLog(AppendAll(log, events))
  {
    if events != [] {
      AppendAllNumbers(log, events[..|events| - 1]);
    }
  }
}
