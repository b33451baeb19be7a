/** How a client catches up with an agent that has nothing new to say. */
module Recovery {
  import opened Wrappers
  import opened Decimal
  import opened Stream
  import opened Cursor
  import opened Protocol

  /** The numbers a connection brings to a client whose cursor is `after`: the retained ones above it. */
  function Retained(emitted: nat, after: nat): seq<nat> {
    var start := ReplayStart(emitted, after);
    seq(emitted - start, i requires 0 <= i < emitted - start => start + 1 + i)
  }

  /** One connection from the client's side: numbers are received until one is refused. */
  function Following(c: Client, ids: seq<nat>): (Client, bool)
    decreases |ids|
  {
    if ids == [] then (c, false)
    else
      var (next, gap) := Receive(c, ids[0]);
      if gap then (next, true) else Following(next, ids[1..])
  }

  /** A whole connection to a quiet agent, and whether it aborts. */
  function Reconnect(c: Client, emitted: nat): (Client, bool) {
    Following(c, Retained(emitted, Top(c)))
  }

  function Attempts(c: Client, emitted: nat, k: nat): Client {
    if k == 0 then c else Reconnect(Attempts(c, emitted, k - 1), emitted).0
  }

  /** How many connections abort before one goes through. */
  function Aborts(c: Client, emitted: nat): nat {
    if c.cursor == None || Top(c) >= Evicted(emitted) then 0
    else if c.retry == Some((Top(c), Evicted(emitted) + 1)) then 1
    else 2
  }

  lemma NextTaken(c: Client, n: nat)
    requires c.cursor == None || n == Top(c) + 1
    ensures Receive(c, n) == (Client(Some(n), None, c.delivered + [n]), false)
  {
  }

  lemma {:induction false} NoGaps(c: Client, ids: seq<nat>, from: nat)
    requires forall i :: 0 <= i < |ids| ==> ids[i] == from + 1 + i
    requires c.cursor == None || c.cursor == Some(from)
    ensures var (c', gap) := Following(c, ids);
            && !gap && c'.delivered == c.delivered + ids
            && (ids != [] ==> c'.cursor == Some(from + |ids|) && c'.retry == None)
            && (ids == [] ==> c' == c)
    decreases |ids|
  {
    hide Receive;
    if ids != [] {
      NextTaken(c, ids[0]);
      NoGaps(Receive(c, ids[0]).0, ids[1..], from + 1);
      assert ids == [ids[0]] + ids[1..];
    }
  }

  /** The next connection: it goes through and delivers everything retained above the cursor, or it is refused at
      its first event and one strike is gone. */
  lemma OneAttempt(c: Client, emitted: nat)
    requires Top(c) <= emitted
    ensures var (c', gap) := Reconnect(c, emitted);
            && (gap <==> Aborts(c, emitted) > 0)
            && Top(c) <= Top(c') <= emitted
            && (gap ==> c'.delivered == c.delivered && Retained(emitted, Top(c')) == Retained(emitted, Top(c))
                        && Aborts(c', emitted) == Aborts(c, emitted) - 1)
            && (!gap ==> c'.delivered == c.delivered + Retained(emitted, Top(c)) && Top(c') == emitted)
  {
    var ids := Retained(emitted, Top(c));
    if Aborts(c, emitted) == 0 {
      if c.cursor == None && ids != [] {
        NoGaps(Receive(c, ids[0]).0, ids[1..], ids[0]);
        assert ids == [ids[0]] + ids[1..];
      } else {
        NoGaps(c, ids, Top(c));
      }
    }
  }

  /** Against a quiet agent, from any cursor up to its sequence and with any remembered gap, exactly `Aborts`
      (never more than two) connections abort; the next delivers every retained event above the cursor and leaves
      the cursor at the agent's sequence. `Aborts` falls with each. */
  lemma BoundedRecovery(c: Client, emitted: nat)
    requires Top(c) <= emitted
    ensures var n := Aborts(c, emitted);
            var (last, gap) := Reconnect(Attempts(c, emitted, n), emitted);
            && n <= 2
            && (forall k :: 0 <= k < n ==> Reconnect(Attempts(c, emitted, k), emitted).1
                                           && Aborts(Attempts(c, emitted, k), emitted) == n - k)
            && !gap && Top(last) == emitted
            && last.delivered == c.delivered + Retained(emitted, Top(c))
    ensures forall n :: n in Retained(emitted, Top(c)) <==> Top(c) < n <= emitted && Evicted(emitted) < n
  {
    RetainedExactly(emitted, Top(c));
    FirstAttempts(c, emitted);
    hide Reconnect, Aborts, Retained, Attempts;
    OneAttempt(c, emitted);
    if Aborts(c, emitted) > 0 {
      OneAttempt(Attempts(c, emitted, 1), emitted);
      if Aborts(c, emitted) == 2 {
        OneAttempt(Attempts(c, emitted, 2), emitted);
      }
    }
  }

  lemma FirstAttempts(c: Client, emitted: nat)
    ensures Attempts(c, emitted, 0) == c
    ensures Attempts(c, emitted, 1) == Reconnect(c, emitted).0
    ensures Attempts(c, emitted, 2) == Reconnect(Attempts(c, emitted, 1), emitted).0
    ensures Aborts(c, emitted) <= 2
  {
    hide Reconnect;
  }

  lemma RetainedExactly(emitted: nat, after: nat)
    ensures forall n :: n in Retained(emitted, after) <==> after < n <= emitted && Evicted(emitted) < n
  {
    var start := ReplayStart(emitted, after);
    forall n | after < n <= emitted && Evicted(emitted) < n ensures n in Retained(emitted, after) {
      assert Retained(emitted, after)[n - start - 1] == n;
    }
  }

  // ---- The protocol's own connections ----

  predicate Undisturbed(step: Step, ch: nat) {
    step != Emit && step != Break && step != Unsubscribe(ch)
  }

  predicate OnLink(w: World, ch: nat) {
    w.link.Some? && w.link.value.channel == ch
  }

  lemma QuietStep(w: World, step: Step, ch: nat)
    requires WorldInv(w) && Enabled(w, step) && Undisturbed(step, ch) && OnLink(w, ch) && ch in w.subs
    ensures var w' := After(w, step);
            var before := Following(w.client, Pipe(w.link.value, w.subs));
            && ch in w'.subs && w'.emitted == w.emitted
            && (w'.link.Some? ==> OnLink(w', ch) && Following(w'.client, Pipe(w'.link.value, w'.subs)) == before)
            && (w'.link == None ==> step == Consume && (w'.client, true) == before)
  {
    hide WorldInv, Following, Receive, TaskIds;
    match step
    case Broadcast => QuietOffer(w, ch);
    case SendSnapshot(other) => QuietSnapshot(w, other);
    case Transmit(other) => QuietTransmit(w, other);
    case Consume => QuietConsume(w);
    case _ =>
  }

  lemma QuietOffer(w: World, ch: nat)
    requires OnLink(w, ch) && ch in w.subs
    ensures Pipe(w.link.value, OfferedToAll(w.subs, Snap)) == Pipe(w.link.value, w.subs)
  {
    IdsConcat(w.subs[ch].buffer, [Snap]);
    assert TaskIds([Snap]) == [];
  }

  lemma QuietSnapshot(w: World, ch: nat)
    requires w.link.Some? && Enabled(w, SendSnapshot(ch))
    ensures Pipe(w.link.value, After(w, SendSnapshot(ch)).subs) == Pipe(w.link.value, w.subs)
  {
    IdsConcat(w.subs[ch].buffer, [Snap]);
    assert TaskIds([Snap]) == [];
  }

  lemma QuietTransmit(w: World, ch: nat)
    requires w.link.Some? && Enabled(w, Transmit(ch))
    ensures var w' := After(w, Transmit(ch)); Pipe(w'.link.value, w'.subs) == Pipe(w.link.value, w.subs)
  {
    var m, rest := w.subs[ch].buffer[0], w.subs[ch].buffer[1..];
    assert w.subs[ch].buffer == [m] + rest;
    IdsConcat([m], rest);
    IdsConcat(w.link.value.wire, [m]);
  }

  lemma QuietConsume(w: World)
    requires Enabled(w, Consume)
    ensures var w' := After(w, Consume);
            var before := Following(w.client, Pipe(w.link.value, w.subs));
            && (w'.link.Some? ==> Following(w'.client, Pipe(w'.link.value, w'.subs)) == before)
            && (w'.link == None ==> (w'.client, true) == before)
  {
    hide Receive, TaskIds;
    HeadOfWire(w.link.value, w.subs);
    var pipe, rest := Pipe(w.link.value, w.subs), Pipe(w.link.value.(wire := w.link.value.wire[1..]), w.subs);
    if w.link.value.wire[0].Task? {
      assert pipe[1..] == rest;
    } else {
      assert pipe == rest;
    }
  }

  lemma OpenedQuietly(w: World, ch: nat)
    requires Enabled(w, Connect(ch)) && Top(w.client) <= w.emitted
    ensures var w' := After(w, Connect(ch));
            OnLink(w', ch) && ch in w'.subs && w'.client == w.client && w'.emitted == w.emitted
    ensures var w' := After(w, Connect(ch)); Pipe(w'.link.value, w'.subs) == Retained(w.emitted, Top(w.client))
  {
    IdsOfTasks(ReplayStart(w.emitted, Top(w.client)), w.emitted);
  }

  /** A connection opened at step `i` and undisturbed until `j`, with nothing emitted meanwhile, is on its way to what
      Reconnect says: it is still open with the rest to come, or it aborted and Reconnect aborts the same way. */
  lemma {:induction false} QuietConnection(worlds: seq<World>, steps: seq<Step>, ch: nat, i: nat, j: nat)
    requires Run(worlds, steps) && i < j < |worlds| && steps[i] == Connect(ch)
    requires forall k :: i < k < j ==> Undisturbed(steps[k], ch) && worlds[k].link.Some?
    ensures var outcome := Reconnect(worlds[i].client, worlds[i].emitted);
            && worlds[j].emitted == worlds[i].emitted
            && (worlds[j].link.Some? ==> OnLink(worlds[j], ch) && ch in worlds[j].subs
                                         && Following(worlds[j].client, Pipe(worlds[j].link.value, worlds[j].subs)) ==
                                             outcome)
            && (worlds[j].link == None ==> (worlds[j].client, true) == outcome)
  {
    hide WorldInv, Enabled, After, Following, Pipe;
    InvAlways(worlds, steps, j - 1);
    assert worlds[j] == After(worlds[j - 1], steps[j - 1]);
    if j == i + 1 {
      assert Top(worlds[i].client) <= worlds[i].emitted by { CursorBelow(worlds[i]); }
      OpenedQuietly(worlds[i], ch);
    } else {
      QuietConnection(worlds, steps, ch, i, j - 1);
      QuietStep(worlds[j - 1], steps[j - 1], ch);
    }
  }

  lemma CursorBelow(w: World)
    requires WorldInv(w)
    ensures Top(w.client) <= w.emitted
  {
  }

  /** So a connection that has brought all it will bring has delivered everything retained above the cursor. */
  lemma DrainedConnectionCatchesUp(worlds: seq<World>, steps: seq<Step>, ch: nat, i: nat, j: nat)
    requires Run(worlds, steps) && i < j < |worlds| && steps[i] == Connect(ch)
    requires forall k :: i < k < j ==> Undisturbed(steps[k], ch) && worlds[k].link.Some?
    requires worlds[j].link.Some? && Pipe(worlds[j].link.value, worlds[j].subs) == []
    ensures Top(worlds[j].client) == worlds[j].emitted && Aborts(worlds[i].client, worlds[i].emitted) == 0
    ensures worlds[j].client.delivered ==
            worlds[i].client.delivered + Retained(worlds[i].emitted, Top(worlds[i].client))
  {
    hide WorldInv, Run, Pipe, Aborts;
    InvAlways(worlds, steps, i);
    CursorBelow(worlds[i]);
    QuietConnection(worlds, steps, ch, i, j);
    OneAttempt(worlds[i].client, worlds[i].emitted);
  }

  // ---- Any quiet stretch of a run ----

  /** Consecutive numbers, from the oldest retained one above the cursor on, or from the cursor's successor once one has
      arrived. */
  predicate QuietPipe(pipe: seq<nat>, tasted: bool, c: Client, emitted: nat) {
    && (forall k :: 0 < k < |pipe| ==> pipe[k] == pipe[0] + k)
    && (tasted ==> c.cursor.Some? && Aborts(c, emitted) == 0)
    && (pipe != [] ==> pipe[0] == (if tasted then Top(c) else ReplayStart(emitted, Top(c))) + 1)
  }

  /** What a connection brings that was opened since the agent fell silent. */
  ghost predicate Quiet(w: World) {
    w.link.Some? ==> QuietPipe(Pipe(w.link.value, w.subs), w.link.value.tasted, w.client, w.emitted)
  }

  /** The client drops the connection over a gap. */
  predicate DropsOverGap(w: World, step: Step)
    requires Enabled(w, step)
  {
    step == Consume && After(w, step).link == None
  }

  lemma ReceivedQuietly(pipe: seq<nat>, rest: seq<nat>, tasted: bool, c: Client, emitted: nat)
    requires QuietPipe(pipe, tasted, c, emitted) && pipe != [] && rest == pipe[1..] && Top(c) < pipe[0] <= emitted
    ensures var (c', gap) := Receive(c, pipe[0]);
            if gap then Aborts(c', emitted) + 1 == Aborts(c, emitted)
            else QuietPipe(rest, true, c', emitted) && Aborts(c', emitted) == 0
  {
  }

  lemma QuietConsumeStep(w: World)
    requires WorldInv(w) && Quiet(w) && Enabled(w, Consume)
    ensures var w' := After(w, Consume);
            && Quiet(w')
            && Aborts(w'.client, w.emitted) + (if DropsOverGap(w, Consume) then 1 else 0) <= Aborts(w.client, w.emitted)
  {
    LinkIsRising(w);
    hide WorldInv, TaskIds, Receive, Aborts, QuietPipe, Pipe;
    var link := w.link.value;
    HeadOfWire(link, w.subs);
    var pipe, rest := Pipe(link, w.subs), Pipe(link.(wire := link.wire[1..]), w.subs);
    match link.wire[0]
    case Snap =>
      assert rest == pipe;
      SameChannelPipe(link, rest, w.subs);
    case Task(n) =>
      assert pipe[0] == n && rest == pipe[1..];
      ReceivedQuietly(pipe, rest, link.tasted, w.client, w.emitted);
      SameChannelPipe(link, rest, w.subs);
  }

  lemma SameChannelPipe(link: Link, rest: seq<nat>, subs: map<nat, Subscription>)
    requires link.wire != [] && rest == Pipe(link.(wire := link.wire[1..]), subs)
    ensures rest == Pipe(link.(wire := link.wire[1..], tasted := true), subs)
  {
    hide TaskIds;
  }

  lemma LinkIsRising(w: World)
    requires WorldInv(w) && w.link.Some?
    ensures Rising(Pipe(w.link.value, w.subs), Top(w.client), w.emitted) && Top(w.client) <= w.emitted
    ensures w.link.value.channel in w.subs.Keys + w.closed
  {
  }

  lemma QuietConnectStep(w: World, ch: nat)
    requires WorldInv(w) && Enabled(w, Connect(ch))
    ensures Quiet(After(w, Connect(ch)))
  {
    CursorBelow(w);
    hide WorldInv, Enabled, After, Pipe;
    OpenedQuietly(w, ch);
    OpenedUntasted(w, ch);
  }

  lemma OpenedUntasted(w: World, ch: nat)
    requires Enabled(w, Connect(ch))
    ensures !After(w, Connect(ch)).link.value.tasted
  {
  }

  lemma ShorterIsQuiet(pipe: seq<nat>, shorter: seq<nat>, tasted: bool, c: Client, emitted: nat)
    requires QuietPipe(pipe, tasted, c, emitted) && shorter <= pipe
    ensures QuietPipe(shorter, tasted, c, emitted)
  {
  }

  /** Every other step leaves the connection's numbers as they are, cuts them short, or ends the connection. */
  lemma OtherStepPipe(w: World, step: Step)
    requires WorldInv(w) && Enabled(w, step) && !step.Emit? && !step.Consume? && !step.Connect?
    ensures var w' := After(w, step);
            && w'.client == w.client && w'.emitted == w.emitted
            && (w'.link.Some? ==> w.link.Some? && w'.link.value.tasted == w.link.value.tasted
                                  && Pipe(w'.link.value, w'.subs) <= Pipe(w.link.value, w.subs))
  {
    if w.link.Some? {
      LinkIsRising(w);
      hide WorldInv, TaskIds;
      var link, w' := w.link.value, After(w, step);
      match step
      case Broadcast =>
        if link.channel in w.subs {
          QuietOffer(w, link.channel);
        }
      case SendSnapshot(ch) => QuietSnapshot(w, ch);
      case Transmit(ch) => QuietTransmit(w, ch);
      case _ =>
    }
  }

  lemma QuietOtherStep(w: World, step: Step)
    requires WorldInv(w) && Quiet(w) && Enabled(w, step) && !step.Emit? && !step.Consume? && !step.Connect?
    ensures var w' := After(w, step);
            Quiet(w') && w'.client == w.client && w'.emitted == w.emitted
  {
    hide WorldInv, Enabled, After, QuietPipe, Pipe;
    OtherStepPipe(w, step);
    var w' := After(w, step);
    if w'.link.Some? {
      ShorterIsQuiet(Pipe(w.link.value, w.subs), Pipe(w'.link.value, w'.subs), w.link.value.tasted, w.client,
                     w.emitted);
    }
  }

  lemma QuietStretchStep(w: World, step: Step)
    requires WorldInv(w) && Quiet(w) && Enabled(w, step) && !step.Emit?
    ensures var w' := After(w, step);
            && Quiet(w') && w'.emitted == w.emitted
            && Aborts(w'.client, w.emitted) + (if DropsOverGap(w, step) then 1 else 0) <= Aborts(w.client, w.emitted)
  {
    hide WorldInv, Quiet, Aborts;
    match step
    case Consume => QuietConsumeStep(w);
    case Connect(ch) => QuietConnectStep(w, ch);
    case _ => QuietOtherStep(w, step);
  }

  /** How often the client dropped a connection over a gap from state `i` to state `j`. */
  function GapAborts(worlds: seq<World>, steps: seq<Step>, i: nat, j: nat): nat
    requires |worlds| == |steps| + 1 && i <= j < |worlds|
    requires forall k :: i <= k < j ==> Enabled(worlds[k], steps[k])
  {
    if i == j then 0
    else GapAborts(worlds, steps, i, j - 1) + (if DropsOverGap(worlds[j - 1], steps[j - 1]) then 1 else 0)
  }

  lemma {:induction false} QuietStretch(worlds: seq<World>, steps: seq<Step>, i: nat, j: nat)
    requires Run(worlds, steps) && i <= j < |worlds| && worlds[i].link == None
    requires forall k :: i <= k < j ==> !steps[k].Emit?
    ensures Quiet(worlds[j]) && worlds[j].emitted == worlds[i].emitted
    ensures GapAborts(worlds, steps, i, j) +
            Aborts(worlds[j].client, worlds[j].emitted) <= Aborts(worlds[i].client, worlds[i].emitted)
  {
    if i < j {
      hide WorldInv, Enabled, After, Aborts, Quiet, DropsOverGap;
      QuietStretch(worlds, steps, i, j - 1);
      InvAlways(worlds, steps, j - 1);
      QuietStretchStep(worlds[j - 1], steps[j - 1]);
    }
  }

  lemma LinkGone(w: World, step: Step)
    requires Enabled(w, step)
    ensures After(w, step).link == None ==> Quiet(After(w, step))
    ensures After(w, step).link.Some? ==> !DropsOverGap(w, step)
    ensures !step.Emit? ==> After(w, step).emitted == w.emitted
    ensures Aborts(After(w, step).client, After(w, step).emitted) <= 2
  {
  }

  /** With a connection open at the start: at most the one abort that connection can end with, and two more. */
  lemma {:induction false} QuietStretchOnLink(worlds: seq<World>, steps: seq<Step>, i: nat, j: nat)
    requires Run(worlds, steps) && i <= j < |worlds| && worlds[i].link.Some?
    requires forall k :: i <= k < j ==> !steps[k].Emit?
    ensures || (worlds[j].link.Some? && GapAborts(worlds, steps, i, j) == 0)
            || (Quiet(worlds[j]) && GapAborts(worlds, steps, i, j) + Aborts(worlds[j].client, worlds[j].emitted) <= 3)
  {
    if i < j {
      hide WorldInv, Enabled, After, Aborts, Quiet, DropsOverGap;
      QuietStretchOnLink(worlds, steps, i, j - 1);
      InvAlways(worlds, steps, j - 1);
      LinkGone(worlds[j - 1], steps[j - 1]);
      if Quiet(worlds[j - 1]) {
        QuietStretchStep(worlds[j - 1], steps[j - 1]);
      }
    }
  }

  /** While nothing is emitted, the connections opened meanwhile abort over gaps at most twice in all; one that was open
      before can add one abort of its own. */
  lemma QuietStretchAborts(worlds: seq<World>, steps: seq<Step>, i: nat, j: nat)
    requires Run(worlds, steps) && i <= j < |worlds|
    requires forall k :: i <= k < j ==> !steps[k].Emit?
    ensures worlds[i].link == None ==>
            GapAborts(worlds, steps, i, j) <= Aborts(worlds[i].client, worlds[i].emitted) <= 2
    ensures GapAborts(worlds, steps, i, j) <= 3
  {
    if worlds[i].link == None {
      QuietStretch(worlds, steps, i, j);
    } else {
      hide Run, Quiet;
      QuietStretchOnLink(worlds, steps, i, j);
    }
  }

  // ---- The client's own loop ----

  function Activity(n: nat, content: nat -> string): StreamEvent {
    ActivityEvent(Some(Render(n)), content(n))
  }

  function ActivityEvents(ids: seq<nat>, content: nat -> string): seq<StreamEvent> {
    seq(|ids|, i requires 0 <= i < |ids| => Activity(ids[i], content))
  }

  function RenderClient(c: Client, content: nat -> string, shown: string): Follower {
    Follower(RenderCursor(c.cursor), RenderGap(c.retry), ActivityEvents(c.delivered, content), shown)
  }

  /** One event, as the coordinator takes it. */
  lemma TakesAsReceived(c: Client, n: nat, content: nat -> string, shown: string, installationId: string)
    ensures var (c', gap) := Receive(c, n);
            Take(RenderClient(c, content, shown), installationId, Activity(n, content)) ==
            (RenderClient(c', content, shown), if gap then Some(GapAbort) else None)
  {
    hide AdvanceEventCursor, AdvanceNumber, Render;
    NumbersSuffice(c.cursor, n, c.retry);
    assert Render(n) != "" by { DecimalRoundTrip(n); assert |Render(n)| > 0; }
    assert ActivityEvents(c.delivered + [n], content) == ActivityEvents(c.delivered, content) + [Activity(n, content)];
  }

  /** The coordinator's session over rendered ids is Following over numbers. */
  lemma {:induction false} SessionFollows(c: Client, ids: seq<nat>, content: nat -> string, shown: string,
                                          installationId: string)
    ensures var (c', gap) := Following(c, ids);
            Session(RenderClient(c, content, shown), installationId, ActivityEvents(ids, content)) ==
            (RenderClient(c', content, shown), if gap then GapAbort else Disconnected)
    decreases |ids|
  {
    hide Take, RenderClient, Receive;
    if ids != [] {
      var events := ActivityEvents(ids, content);
      assert events[0] == Activity(ids[0], content);
      assert events[1..] == ActivityEvents(ids[1..], content);
      TakesAsReceived(c, ids[0], content, shown, installationId);
      SessionFollows(Receive(c, ids[0]).0, ids[1..], content, shown, installationId);
    }
  }
}
