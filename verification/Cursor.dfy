/** The client's replay cursor and its two-strike gap recovery
    (custom_components/codex_monitor/coordinator.py). */
module Cursor {
  import opened Wrappers
  import opened Decimal

  /** Cursor, remembered gap, and whether to drop the connection. */
  datatype Advance<T> = Advance(cursor: T, retry: Option<(T, T)>, gap: bool)

  /** `_advance_event_cursor`, on the strings that travel. */
  function AdvanceEventCursor(previous: Option<string>, current: string,
                              repeatedGap: Option<(string, string)>): Advance<string> {
    match previous
    case None => Advance(current, None, false)
    case Some(prev) =>
      match (PyInt(prev), PyInt(current))
      case (Some(previousNumber), Some(currentNumber)) =>
        if currentNumber <= previousNumber + 1 then Advance(current, None, false)
        else if repeatedGap == Some((prev, current)) then Advance(RenderInt(currentNumber - 1), None, true)
        else Advance(prev, Some((prev, current)), true)
      case _ => Advance(current, None, false)
  }

  /** The same on sequence numbers. */
  function AdvanceNumber(previous: Option<nat>, current: nat, repeatedGap: Option<(nat, nat)>): Advance<nat> {
    if previous == None || current <= previous.value + 1 then Advance(current, None, false)
    else if repeatedGap == Some((previous.value, current)) then Advance(current - 1, None, true)
    else Advance(previous.value, Some((previous.value, current)), true)
  }

  function RenderCursor(cursor: Option<nat>): Option<string> {
    match cursor case None => None case Some(n) => Some(Render(n))
  }

  function RenderGap(gap: Option<(nat, nat)>): Option<(string, string)> {
    match gap case None => None case Some((p, c)) => Some((Render(p), Render(c)))
  }

  function RenderAdvance(a: Advance<nat>): Advance<string> {
    Advance(Render(a.cursor), RenderGap(a.retry), a.gap)
  }

  /** Nothing is lost by thinking in numbers: string comparison of remembered gaps included. */
  lemma NumbersSuffice(previous: Option<nat>, current: nat, repeatedGap: Option<(nat, nat)>)
    ensures AdvanceEventCursor(RenderCursor(previous), Render(current), RenderGap(repeatedGap)) ==
            RenderAdvance(AdvanceNumber(previous, current, repeatedGap))
  {
    hide PyInt, Render, RenderInt;
    DecimalRoundTrip(current);
    if previous.Some? {
      DecimalRoundTrip(previous.value);
      if current > 0 {
        DecimalRoundTrip(current - 1);
      }
      if repeatedGap.Some? {
        RenderInjective(repeatedGap.value.0, previous.value);
        RenderInjective(repeatedGap.value.1, current);
      }
    }
  }

  function Retried(a: Advance<string>, current: string): Advance<string> {
    AdvanceEventCursor(Some(a.cursor), current, a.retry)
  }

  /** Whatever strings the cursor, the event id and the remembered gap are, the same event is refused
      at most twice in a row; a refusal never leaves the cursor beyond it, and the third time it is taken. */
  lemma TwoStrikes(previous: Option<string>, current: string, repeatedGap: Option<(string, string)>)
    ensures var first := AdvanceEventCursor(previous, current, repeatedGap);
            var second := Retried(first, current);
            && (!first.gap ==> first.cursor == current && first.retry == None)
            && (first.gap && repeatedGap != Some((previous.value, current)) ==>
                first.cursor == previous.value && first.retry == Some((previous.value, current)))
            && (first.gap && second.gap ==> !Retried(second, current).gap && Retried(second, current).cursor == current)
            && (first.gap && repeatedGap == Some((previous.value, current)) ==> !second.gap && second.cursor == current)
  {
    hide PyInt, RenderInt;
    var first := AdvanceEventCursor(previous, current, repeatedGap);
    if first.gap {
      IntRoundTrip(PyInt(current).value - 1);
    }
  }

  // ---- The stream loop ----

  /** One parsed event: a snapshot of some installation, a task event with or without an id, or anything else. */
  datatype StreamEvent =
    | SnapshotEvent(installationId: string, content: string)
    | ActivityEvent(eventId: Option<string>, content: string)
    | OtherEvent

  datatype SessionEnd = Disconnected | GapAbort | InstallationChanged

  datatype Follower = Follower(lastEventId: Option<string>, eventGapRetry: Option<(string, string)>,
                               delivered: seq<StreamEvent>, shown: string)

  function Take(f: Follower, installationId: string, e: StreamEvent): (Follower, Option<SessionEnd>) {
    match e
    case SnapshotEvent(id, content) =>
      if id != installationId then (f, Some(InstallationChanged)) else (f.(shown := content), None)
    case ActivityEvent(eventId, content) =>
      if eventId == None || eventId == Some("") then (f.(delivered := f.delivered + [e]), None)
      else
        var a := AdvanceEventCursor(f.lastEventId, eventId.value, f.eventGapRetry);
        var moved := f.(lastEventId := Some(a.cursor), eventGapRetry := a.retry);
        if a.gap then (moved, Some(GapAbort)) else (moved.(delivered := f.delivered + [e]), None)
    case OtherEvent => (f, None)
  }

  /** One connection: the events it carries, until they end or one of them ends it. */
  function Session(f: Follower, installationId: string, events: seq<StreamEvent>): (Follower, SessionEnd)
    decreases |events|
  {
    if events == [] then (f, Disconnected)
    else
      var (next, end) := Take(f, installationId, events[0]);
      match end
      case None => Session(next, installationId, events[1..])
      case Some(reason) => (next, reason)
  }

  /** The task events among them, in order. */
  function ActivitiesIn(events: seq<StreamEvent>): seq<StreamEvent> {
    if events == [] then []
    else (if events[0].ActivityEvent? then [events[0]] else []) + ActivitiesIn(events[1..])
  }

  /** The content of the last snapshot among them, or else what was shown before. */
  function ShownAfter(before: string, events: seq<StreamEvent>): string {
    if events == [] then before
    else if events[|events| - 1].SnapshotEvent? then events[|events| - 1].content
    else ShownAfter(before, events[..|events| - 1])
  }

  /** The follower took the first `n` events: it delivered their task events and shows their last snapshot, and none of
      them was a snapshot of another installation. */
  ghost predicate TookPrefix(f: Follower, installationId: string, events: seq<StreamEvent>, n: nat, g: Follower) {
    && n <= |events|
    && g.delivered == f.delivered + ActivitiesIn(events[..n]) && g.shown == ShownAfter(f.shown, events[..n])
    && (forall i :: 0 <= i < n && events[i].SnapshotEvent? ==> events[i].installationId == installationId)
    && ((forall i :: 0 <= i < |events| ==> !HasNumber(events[i])) ==>
          g.lastEventId == f.lastEventId && g.eventGapRetry == f.eventGapRetry)
  }

  /** ... and no more: the next one, if any, ended the connection. */
  predicate EndedAfter(installationId: string, events: seq<StreamEvent>, n: nat, end: SessionEnd) {
    && (end == Disconnected <==> n == |events|)
    && (end == InstallationChanged <==>
        n < |events| && events[n].SnapshotEvent? && events[n].installationId != installationId)
    && (end == GapAbort <==> n < |events| && HasNumber(events[n]))
  }

  predicate HasNumber(e: StreamEvent) {
    e.ActivityEvent? && e.eventId.Some? && e.eventId.value != ""
  }

  lemma TookOneMore(f: Follower, installationId: string, first: StreamEvent, rest: seq<StreamEvent>, n: nat,
                    g: Follower)
    requires var (next, stop) := Take(f, installationId, first);
             stop == None && TookPrefix(next, installationId, rest, n, g)
    ensures TookPrefix(f, installationId, [first] + rest, n + 1, g)
  {
    hide ActivitiesIn, ShownAfter, Take, HasNumber;
    var events := [first] + rest;
    TakenOne(f, installationId, first);
    assert events[..n + 1] == [first] + rest[..n];
    assert events[0] == first && forall i :: 1 <= i < |events| ==> events[i] == rest[i - 1];
    assert forall i :: 0 <= i < |rest| ==> rest[i] == events[i + 1];
    ShownFromFront(f.shown, first, rest[..n]);
    ActivitiesFromFront(first, rest[..n]);
  }

  lemma ActivitiesFromFront(first: StreamEvent, rest: seq<StreamEvent>)
    ensures ActivitiesIn([first] + rest) == (if first.ActivityEvent? then [first] else []) + ActivitiesIn(rest)
  {
    assert ([first] + rest)[1..] == rest;
  }

  /** What an event that does not end the connection does. */
  lemma TakenOne(f: Follower, installationId: string, e: StreamEvent)
    requires Take(f, installationId, e).1 == None
    ensures var next := Take(f, installationId, e).0;
            && next.delivered == f.delivered + (if e.ActivityEvent? then [e] else [])
            && next.shown == (if e.SnapshotEvent? then e.content else f.shown)
            && (e.SnapshotEvent? ==> e.installationId == installationId)
            && (!HasNumber(e) ==> next.lastEventId == f.lastEventId && next.eventGapRetry == f.eventGapRetry)
  {
    hide AdvanceEventCursor;
  }

  /** A connection takes a prefix of what it carries. A snapshot of another installation ends it without being
      shown, and only a task event with a number moves the cursor or aborts. */
  lemma {:induction false} SessionTakesPrefix(f: Follower, installationId: string, events: seq<StreamEvent>)
      returns (n: nat)
    ensures var (g, end) := Session(f, installationId, events);
            TookPrefix(f, installationId, events, n, g) && EndedAfter(installationId, events, n, end)
    decreases |events|
  {
    hide AdvanceEventCursor, TookPrefix, HasNumber;
    n := 0;
    TookNone(f, installationId, events);
    if events != [] && Take(f, installationId, events[0]).1 == None {
      var next, rest := Take(f, installationId, events[0]).0, events[1..];
      n := SessionTakesPrefix(next, installationId, rest);
      TookOneMore(f, installationId, events[0], rest, n, Session(next, installationId, rest).0);
      assert [events[0]] + rest == events;
      n := n + 1;
    }
  }

  lemma TookNone(f: Follower, installationId: string, events: seq<StreamEvent>)
    ensures events == [] ==> TookPrefix(f, installationId, events, 0, f)
    ensures events != [] && Take(f, installationId, events[0]).1.Some? ==>
              var (g, end) := Take(f, installationId, events[0]);
              TookPrefix(f, installationId, events, 0, g) && EndedAfter(installationId, events, 0, end.value)
  {
    hide AdvanceEventCursor;
  }

  lemma {:induction false} ShownFromFront(before: string, first: StreamEvent, rest: seq<StreamEvent>)
    ensures ShownAfter(before, [first] + rest) ==
            ShownAfter(if first.SnapshotEvent? then first.content else before, rest)
  {
    var all := [first] + rest;
    if rest != [] {
      assert all[..|all| - 1] == [first] + rest[..|rest| - 1];
      ShownFromFront(before, first, rest[..|rest| - 1]);
    } else {
      assert all[..|all| - 1] == [];
    }
  }

  class Coordinator {
    const installationId: string
    var lastEventId: Option<string>
    var eventGapRetry: Option<(string, string)>
    var delivered: seq<StreamEvent>
    var shown: string

    constructor (installationId: string)
      ensures this.installationId == installationId && View() == Follower(None, None, [], "")
    {
      this.installationId := installationId;
      lastEventId, eventGapRetry, delivered, shown := None, None, [], "";
    }

    function View(): Follower
      reads this
    {
      Follower(lastEventId, eventGapRetry, delivered, shown)
    }

    /** The body of `_async_stream_loop` for one connection. */
    method Follow(events: seq<StreamEvent>) returns (end: SessionEnd)
      modifies this
      ensures (View(), end) == Session(old(View()), installationId, events)
    {
      for i := 0 to |events|
        invariant Session(View(), installationId, events[i..]) == Session(old(View()), installationId, events)
      {
        assert events[i..][1..] == events[i + 1..];
        var event := events[i];
        match event {
          case SnapshotEvent(id, content) =>
            if id != installationId {
              return InstallationChanged;
            }
            shown := content;
          case ActivityEvent(eventId, content) =>
            if eventId.Some? && eventId.value != "" {
              var a := AdvanceEventCursor(lastEventId, eventId.value, eventGapRetry);
              lastEventId := Some(a.cursor);
              eventGapRetry := a.retry;
              if a.gap {
                return GapAbort;
              }
            }
            delivered := delivered + [event];
          case OtherEvent =>
        }
      }
      return Disconnected;
    }
  }

  // ---- What the agent makes of the cursor ----

  /** The Last-Event-ID header: absent without a cursor; zero when it does not parse. */
  function AfterSequence(lastEventId: Option<string>): nat {
    match lastEventId
    case None => 0
    case Some(value) =>
      if value == "" then 0
      else match ParseUint64(value) case None => 0 case Some(n) => n
  }

  lemma CursorTravels(cursor: Option<nat>)
    requires cursor.Some? ==> cursor.value < UINT64_LIMIT
    ensures AfterSequence(RenderCursor(cursor)) == if cursor.Some? then cursor.value else 0
  {
    if cursor.Some? {
      DecimalRoundTrip(cursor.value);
    }
  }

  /** Whatever is no number of at most 64 bits in plain digits asks for everything. */
  lemma OtherCursorsAskForAll(cursor: string)
    ensures AfterSequence(Some(cursor)) > 0 ==>
              cursor != "" && (forall i :: 0 <= i < |cursor| ==> '0' <= cursor[i] <= '9')
                  && AfterSequence(Some(cursor)) == Value(cursor) < 0x1_0000_0000_0000_0000
  {
  }
}
