/** The replay window, subscriber channels and snapshot deduplication
    (agent/internal/monitor/events.go and the subscription part of monitor.go). */
module Stream {
  import opened Wrappers
  import opened Model
  import opened Transitions

  const EVENT_HISTORY_LIMIT: nat := 256
  const CHANNEL_CAPACITY: nat := 300

  datatype StreamMessage = TaskActivity(event: TaskEvent) | SnapshotMessage(snapshot: Snapshot)

  // ---- The window of retained events ----

  /** Append, then keep only the newest entries. */
  function Retain(history: seq<TaskEvent>, event: TaskEvent): seq<TaskEvent> {
    var longer := history + [event];
    if |longer| > EVENT_HISTORY_LIMIT then longer[|longer| - EVENT_HISTORY_LIMIT..] else longer
  }

  /** How many of the first `n` events are gone. */
  function Evicted(n: nat): nat {
    if n > EVENT_HISTORY_LIMIT then n - EVENT_HISTORY_LIMIT else 0
  }

  function Window(log: seq<TaskEvent>): seq<TaskEvent> {
    log[Evicted(|log|)..]
  }

  lemma RetainKeepsWindow(log: seq<TaskEvent>, event: TaskEvent)
    ensures Retain(Window(log), event) == Window(log + [event])
  {
  }

  /** The retained events above `after`, in order. */
  function Replay(history: seq<TaskEvent>, after: nat): seq<StreamMessage> {
    if history == [] then []
    else (if history[0].sequence > after then [TaskActivity(history[0])] else []) + Replay(history[1..], after)
  }

  function Activities(events: seq<TaskEvent>): seq<StreamMessage> {
    seq(|events|, i requires 0 <= i < |events| => TaskActivity(events[i]))
  }

  /** After how many of `n` events a replay from `after` starts. */
  function ReplayStart(n: nat, after: nat): nat {
    if after >= n then n else if after > Evicted(n) then after else Evicted(n)
  }

  /** Replay is one contiguous suffix of the log: from the client's cursor, or from the window's edge. */
  lemma ReplayIsSuffix(log: seq<TaskEvent>, after: nat)
    requires NumberedLog(log)
    ensures Replay(Window(log), after) == Activities(log[ReplayStart(|log|, after)..])
    ensures |Replay(Window(log), after)| <= EVENT_HISTORY_LIMIT < CHANNEL_CAPACITY
  {
    ReplayFrom(log, Evicted(|log|), after);
  }

  lemma {:induction false} ReplayFrom(log: seq<TaskEvent>, i: nat, after: nat)
    requires NumberedLog(log) && i <= |log|
    ensures Replay(log[i..], after) ==
            Activities(log[if after >= |log| then |log| else if after > i then after else i..])
    decreases |log| - i
  {
    if i < |log| {
      ReplayFrom(log, i + 1, after);
      assert log[i..][1..] == log[i + 1..];
    }
  }

  // ---- A bounded channel ----

  /** A non-blocking send: dropped when the channel is full. */
  function Offer(buffer: seq<StreamMessage>, message: StreamMessage): seq<StreamMessage> {
    if |buffer| < CHANNEL_CAPACITY then buffer + [message] else buffer
  }

  function OfferAll(buffer: seq<StreamMessage>, messages: seq<StreamMessage>): seq<StreamMessage> {
    if messages == [] then buffer
    else Offer(OfferAll(buffer, messages[..|messages| - 1]), messages[|messages| - 1])
  }

  lemma OfferOneMore(buffer: seq<StreamMessage>, messages: seq<StreamMessage>, message: StreamMessage)
    ensures OfferAll(buffer, messages + [message]) == Offer(OfferAll(buffer, messages), message)
  {
    assert (messages + [message])[..|messages|] == messages;
  }

  lemma {:induction false} OfferAllConcat(buffer: seq<StreamMessage>, a: seq<StreamMessage>, b: seq<StreamMessage>)
    ensures OfferAll(buffer, a + b) == OfferAll(OfferAll(buffer, a), b)
  {
    if b == [] {
      assert a + b == a;
    } else {
      assert (a + b)[..|a + b| - 1] == a + b[..|b| - 1];
      OfferAllConcat(buffer, a, b[..|b| - 1]);
    }
  }

  /** While there is room nothing is dropped. */
  lemma {:induction false} RoomKeepsAll(buffer: seq<StreamMessage>, messages: seq<StreamMessage>)
    requires |buffer| + |messages| <= CHANNEL_CAPACITY
    ensures OfferAll(buffer, messages) == buffer + messages
  {
    if messages != [] {
      var front, last := messages[..|messages| - 1], messages[|messages| - 1];
      RoomKeepsAll(buffer, front);
      assert buffer + messages == buffer + front + [last];
    }
  }

  /** A subscriber's Go channel; `closed` is a fact about its whole life. */
  class Channel {
    var buffer: seq<StreamMessage>
    var closed: bool

    constructor ()
      ensures buffer == [] && !closed
    {
      buffer, closed := [], false;
    }

    /** `select { case ch <- message: default: }`. Sending on a closed channel would panic. */
    method TrySend(message: StreamMessage)
      requires !closed
      modifies this`buffer
      ensures buffer == Offer(old(buffer), message)
    {
      if |buffer| < CHANNEL_CAPACITY {
        buffer := buffer + [message];
      }
    }

    /** `ch <- message`, which blocks unless there is room. */
    method Send(message: StreamMessage)
      requires !closed && |buffer| < CHANNEL_CAPACITY
      modifies this`buffer
      ensures buffer == old(buffer) + [message]
    {
      buffer := buffer + [message];
    }

    method Close()
      requires !closed
      modifies this`closed
      ensures closed
    {
      closed := true;
    }
  }

  // ---- Snapshot signatures ----

  function CompactUsage(usage: Payload): Payload {
    match usage
    case None => None
    case Some(fields) => Some(fields - {"dailyUsageBuckets"})
  }

  /** The snapshot with its clocks and daily usage cleared; its hash is the stream signature. */
  function Normalize(s: Snapshot): Snapshot {
    s.(generatedAt := ZERO_TIME, uptime := 0,
       codex := s.codex.(lastSuccessAt := None),
       threads := seq(|s.threads|, i requires 0 <= i < |s.threads| => s.threads[i].(updatedAt := ZERO_TIME)),
       usage := CompactUsage(s.usage))
  }

  /** The account usage, but for its daily buckets. */
  ghost predicate SameUsage(a: Payload, b: Payload) {
    && (a == None <==> b == None)
    && (a.Some? && b.Some? ==>
          && (forall key :: key != "dailyUsageBuckets" ==> (key in a.value <==> key in b.value))
          && (forall key :: key != "dailyUsageBuckets" && key in a.value && key in b.value ==>
              a.value[key] == b.value[key]))
  }

  /** Two snapshots that show the same: all but when they were made, how long the agent was up, when the app-server last
      answered, when each thread was last updated, and the daily usage. */
  ghost predicate ShowSame(a: Snapshot, b: Snapshot) {
    && a.stale == b.stale && a.appServer == b.appServer && a.hooks == b.hooks && a.summary == b.summary
    && a.pendingRequests == b.pendingRequests && a.rateLimits == b.rateLimits
    && a.codex == b.codex.(lastSuccessAt := a.codex.lastSuccessAt)
    && |a.threads| == |b.threads|
    && (forall i :: 0 <= i < |a.threads| ==> a.threads[i] == b.threads[i].(updatedAt := a.threads[i].updatedAt))
    && SameUsage(a.usage, b.usage)
  }

  lemma UsageExactly(a: Payload, b: Payload)
    ensures CompactUsage(a) == CompactUsage(b) <==> SameUsage(a, b)
  {
    if a.Some? && b.Some? {
      var c, d := CompactUsage(a).value, CompactUsage(b).value;
      assert forall key :: key in c <==> key in a.value && key != "dailyUsageBuckets";
      assert forall key :: key in d <==> key in b.value && key != "dailyUsageBuckets";
      if SameUsage(a, b) {
        assert c == d;
      }
    }
  }

  lemma ThreadsExactly(a: Snapshot, b: Snapshot)
    ensures Normalize(a).threads == Normalize(b).threads <==>
              && |a.threads| == |b.threads|
              && (forall i :: 0 <= i < |a.threads| ==>
                  a.threads[i] == b.threads[i].(updatedAt := a.threads[i].updatedAt))
  {
    var x, y := Normalize(a).threads, Normalize(b).threads;
    if x == y {
      forall i | 0 <= i < |a.threads| ensures a.threads[i] == b.threads[i].(updatedAt := a.threads[i].updatedAt) {
        assert x[i] == y[i];
      }
    }
  }

  /** Equal signatures mean snapshots that show the same, and the other way round. */
  lemma SignatureExactly(a: Snapshot, b: Snapshot)
    ensures Normalize(a) == Normalize(b) <==> ShowSame(a, b)
  {
    UsageExactly(a.usage, b.usage);
    ThreadsExactly(a, b);
    hide CompactUsage, SameUsage;
  }

  function LastSnapshot(messages: seq<StreamMessage>): Option<Snapshot> {
    if messages == [] then None
    else if messages[|messages| - 1].SnapshotMessage? then Some(messages[|messages| - 1].snapshot)
    else LastSnapshot(messages[..|messages| - 1])
  }
}
