/** What holds of the event stream over whole runs. */
module ProtocolTheorems {
  import opened Wrappers
  import opened Model
  import opened Transitions
  import opened Stream
  import opened Protocol

  // ---- No silent loss ----

  /** The connection in use at `k` was opened by an earlier Connect, and has been in use since. */
  lemma {:induction false} OpenedWhen(worlds: seq<World>, steps: seq<Step>, k: nat) returns (m: nat)
    requires Run(worlds, steps) && k < |worlds| && worlds[k].link.Some?
    ensures m < k && steps[m] == Connect(worlds[k].link.value.channel)
    ensures worlds[m].emitted == worlds[k].link.value.openSeq
    ensures forall x :: m < x <= k ==>
            worlds[x].link.Some? && worlds[x].link.value.channel == worlds[k].link.value.channel
  {
    if steps[k - 1].Connect? {
      m := k - 1;
    } else {
      assert worlds[k] == After(worlds[k - 1], steps[k - 1]);
      m := OpenedWhen(worlds, steps, k - 1);
    }
  }

  lemma StepAddsJump(w: World, step: Step)
    requires Enabled(w, step)
    ensures var w' := After(w, step);
            || w'.jumps == w.jumps
            || (step.Consume? && w'.jumps == w.jumps + [Jump(Top(w.client), Top(w'.client), w.link.value.openSeq)])
  {
  }

  /** Every jump on record was made by a Consume of the run. */
  lemma {:induction false} JumpHappened(worlds: seq<World>, steps: seq<Step>, i: nat, j: nat) returns (k: nat)
    requires Run(worlds, steps) && i < |worlds| && j < |worlds[i].jumps|
    ensures k < i && steps[k] == Consume && worlds[k].link.Some?
    ensures worlds[i].jumps[j] == Jump(Top(worlds[k].client), Top(worlds[k + 1].client), worlds[k].link.value.openSeq)
  {
    hide After;
    StepAddsJump(worlds[i - 1], steps[i - 1]);
    if j < |worlds[i - 1].jumps| {
      k := JumpHappened(worlds, steps, i - 1, j);
    } else {
      k := i - 1;
    }
  }

  predicate Seen(c: Client, n: nat) {
    c.delivered != [] && c.delivered[0] <= n <= Top(c)
  }

  /** The client passes over `n` at step `k`, on the connection opened at step `m`, by when the agent's window had
      lost `n`. */
  ghost predicate GivenUp(worlds: seq<World>, steps: seq<Step>, n: nat, m: nat, k: nat)
    requires |worlds| == |steps| + 1
  {
    && m < k < |steps| && steps[k] == Consume
    && Top(worlds[k].client) < n <= Top(worlds[k + 1].client)
    && steps[m].Connect? && n <= Evicted(worlds[m].emitted)
    && (forall x :: m < x <= k ==> worlds[x].link.Some? && worlds[x].link.value.channel == steps[m].ch)
  }

  /** No silent loss: whatever is dropped, broken off or reordered between connections, each number between the
      first delivered and the cursor was delivered, or had left the window when the connection opened on which
      the client gave it up. */
  lemma NoSilentLoss(worlds: seq<World>, steps: seq<Step>, i: nat, n: nat)
    requires Run(worlds, steps) && i < |worlds| && Seen(worlds[i].client, n)
    ensures n in worlds[i].client.delivered || exists m: nat, k: nat :: k < i && GivenUp(worlds, steps, n, m, k)
  {
    InvAlways(worlds, steps, i);
    if n !in worlds[i].client.delivered {
      SkippedIn(worlds[i], n);
      var j :| 0 <= j < |worlds[i].jumps|
          && worlds[i].jumps[j].from < n <= worlds[i].jumps[j].to <= Evicted(worlds[i].jumps[j].openSeq);
      hide WorldInv, Run;
      var k := JumpHappened(worlds, steps, i, j);
      var m := OpenedWhen(worlds, steps, k);
      assert GivenUp(worlds, steps, n, m, k);
    }
  }

  lemma SkippedIn(w: World, n: nat)
    requires WorldInv(w) && Seen(w.client, n) && n !in w.client.delivered
    ensures exists j :: 0 <= j < |w.jumps| && w.jumps[j].from < n <= w.jumps[j].to <= Evicted(w.jumps[j].openSeq)
  {
    hide AgentInv, ClientInv, LinkInv;
    var j :| 0 <= j < |w.jumps| && w.jumps[j].from < n <= w.jumps[j].to;
  }

  // ---- Order ----

  lemma StepKeepsDelivered(w: World, step: Step)
    requires Enabled(w, step)
    ensures w.client.delivered <= After(w, step).client.delivered
  {
  }

  /** Exactly-once order: what listeners received only ever grows at its end, and its numbers strictly increase,
      across any number of reconnects, gap aborts and cursor jumps. */
  lemma {:induction false} DeliveredInOrder(worlds: seq<World>, steps: seq<Step>, i: nat, j: nat)
    requires Run(worlds, steps) && i <= j < |worlds|
    ensures worlds[i].client.delivered <= worlds[j].client.delivered
    ensures Rising(worlds[j].client.delivered, 0, worlds[j].emitted)
  {
    InvAlways(worlds, steps, j);
    if i < j {
      DeliveredInOrder(worlds, steps, i, j - 1);
      StepKeepsDelivered(worlds[j - 1], steps[j - 1]);
    }
  }

  // ---- Channels ----

  lemma StepKeepsChannel(w: World, step: Step, ch: nat)
    requires WorldInv(w) && Enabled(w, step)
    ensures var w' := After(w, step);
            && (ch in w.subs.Keys + w.closed ==> ch in w'.subs.Keys + w'.closed)
            && (ch in w.closed ==> ch in w'.closed)
            && (ch in w.subs && ch in w'.subs ==>
                  w'.subs[ch].start == w.subs[ch].start && w.subs[ch].through <= w'.subs[ch].through)
            && (ch in w.subs && step == Transmit(ch) && w.subs[ch].buffer[0].Task? ==>
                  w'.subs[ch].through == w.subs[ch].buffer[0].sequence > w.subs[ch].through)
  {
    hide NothingSilent, ClientInv, LinkInv, TaskIds, Tasks, Rising;
    if ch in w.subs && step == Transmit(ch) {
      Taken(w.subs[ch], w.emitted);
    }
  }

  /** What has been taken out of a channel only grows, as long as the channel lives; and it lives once. */
  lemma {:induction false} ThroughGrows(worlds: seq<World>, steps: seq<Step>, ch: nat, i: nat, j: nat)
    requires Run(worlds, steps) && i <= j < |worlds| && ch in worlds[i].subs
    ensures ch in worlds[j].subs.Keys + worlds[j].closed
    ensures ch in worlds[j].subs ==>
              worlds[j].subs[ch].start == worlds[i].subs[ch].start
                  && worlds[i].subs[ch].through <= worlds[j].subs[ch].through
  {
    hide WorldInv;
    InvAlways(worlds, steps, j);
    if i < j {
      ThroughGrows(worlds, steps, ch, i, j - 1);
      InvAlways(worlds, steps, j - 1);
      StepKeepsChannel(worlds[j - 1], steps[j - 1], ch);
      ClosedIsOver(worlds[j], ch);
    }
  }

  lemma ClosedIsOver(w: World, ch: nat)
    requires WorldInv(w)
    ensures !(ch in w.subs && ch in w.closed)
  {
  }

  /** Each subscriber gets strictly increasing numbers above the one its replay started after. */
  lemma OutputRises(worlds: seq<World>, steps: seq<Step>, ch: nat, i: nat, j: nat)
    requires Run(worlds, steps) && i < j < |steps| && steps[i] == steps[j] == Transmit(ch)
    requires worlds[i].subs[ch].buffer[0].Task? && worlds[j].subs[ch].buffer[0].Task?
    ensures var before, after := worlds[i].subs[ch], worlds[j].subs[ch];
            after.start <= before.through < before.buffer[0].sequence < after.buffer[0].sequence
  {
    InvAlways(worlds, steps, i);
    InvAlways(worlds, steps, j);
    assert SubInv(worlds[i].subs[ch], worlds[i].emitted);
    StepKeepsChannel(worlds[i], steps[i], ch);
    ThroughGrows(worlds, steps, ch, i + 1, j);
    ThroughGrows(worlds, steps, ch, i, j);
    StepKeepsChannel(worlds[j], steps[j], ch);
  }

  // ---- The last send of Subscribe ----

  predicate FansOut(step: Step) {
    step.Emit? || step.Broadcast?
  }

  /** How many messages the agent offered to everybody. */
  function Fanned(steps: seq<Step>): nat {
    if steps == [] then 0 else Fanned(steps[..|steps| - 1]) + (if FansOut(steps[|steps| - 1]) then 1 else 0)
  }

  predicate Filling(w: World, ch: nat, count: nat) {
    ch in w.subs && !w.subs[ch].ready && |w.subs[ch].buffer| == if count < CHANNEL_CAPACITY then count
        else CHANNEL_CAPACITY
  }

  lemma StepFills(w: World, step: Step, ch: nat, count: nat)
    requires Enabled(w, step) && step != SendSnapshot(ch) && Filling(w, ch, count)
    ensures Filling(After(w, step), ch, count + if FansOut(step) then 1 else 0)
  {
  }

  lemma {:induction false} FillsUp(worlds: seq<World>, steps: seq<Step>, ch: nat, i: nat, j: nat)
    requires Run(worlds, steps) && i <= j < |worlds|
    requires ch in worlds[i].subs && !worlds[i].subs[ch].ready && |worlds[i].subs[ch].buffer| <= CHANNEL_CAPACITY
    requires forall k :: i <= k < j ==> steps[k] != SendSnapshot(ch)
    ensures Filling(worlds[j], ch, |worlds[i].subs[ch].buffer| + Fanned(steps[i..j]))
  {
    hide Enabled, After, Fanned;
    if i < j {
      hide Filling;
      FillsUp(worlds, steps, ch, i, j - 1);
      StepFills(worlds[j - 1], steps[j - 1], ch, |worlds[i].subs[ch].buffer| + Fanned(steps[i..j - 1]));
      assert steps[i..j] == steps[i..j - 1] + [steps[j - 1]];
      FannedOneMore(steps[i..j - 1], steps[j - 1]);
    } else {
      FannedOneMore([], Break);
      assert steps[i..j] == [];
    }
  }

  lemma FannedOneMore(front: seq<Step>, last: Step)
    ensures Fanned([]) == 0
    ensures Fanned(front + [last]) == Fanned(front) + if FansOut(last) then 1 else 0
  {
    assert (front + [last])[..|front|] == front;
  }

  lemma Registered(w: World, step: Step, ch: nat)
    requires Enabled(w, step) && (step == Connect(ch) || (step.Register? && step.ch == ch))
    ensures ch in After(w, step).subs && !After(w, step).subs[ch].ready
    ensures |After(w, step).subs[ch].buffer| <= EVENT_HISTORY_LIMIT
  {
  }

  lemma SendWhenRoom(w: World, ch: nat)
    ensures ch in w.subs && !w.subs[ch].ready ==>
            (Enabled(w, SendSnapshot(ch)) <==> |w.subs[ch].buffer| < CHANNEL_CAPACITY)
  {
  }

  /** Subscribe sends its snapshot after its unlock, into a channel nobody reads yet: it can do so exactly as long as
      the replay and the messages fanned out since leave room, and once they do not, it never returns. */
  lemma SubscribeReturnsExactly(worlds: seq<World>, steps: seq<Step>, ch: nat, i: nat, j: nat)
    requires Run(worlds, steps) && i < j < |worlds|
    requires steps[i] == Connect(ch) || (steps[i].Register? && steps[i].ch == ch)
    requires forall k :: i < k < j ==> steps[k] != SendSnapshot(ch)
    ensures ch in worlds[i + 1].subs
    ensures var room := |worlds[i + 1].subs[ch].buffer| + Fanned(steps[i + 1..j]) < CHANNEL_CAPACITY;
            && (Enabled(worlds[j], SendSnapshot(ch)) <==> room)
            && (!room ==> forall k :: j <= k < |worlds| ==> ch in worlds[k].subs && !worlds[k].subs[ch].ready)
  {
    hide Enabled, After, WorldInv, Fanned;
    assert worlds[i + 1] == After(worlds[i], steps[i]);
    Registered(worlds[i], steps[i], ch);
    FillsUp(worlds, steps, ch, i + 1, j);
    SendWhenRoom(worlds[j], ch);
    if |worlds[i + 1].subs[ch].buffer| + Fanned(steps[i + 1..j]) >= CHANNEL_CAPACITY {
      forall k | j <= k < |worlds| ensures ch in worlds[k].subs && !worlds[k].subs[ch].ready {
        StaysFull(worlds, steps, ch, j, k);
      }
    }
  }

  predicate Full(w: World, ch: nat) {
    ch in w.subs && !w.subs[ch].ready && |w.subs[ch].buffer| == CHANNEL_CAPACITY
  }

  lemma StepStaysFull(w: World, step: Step, ch: nat)
    requires Enabled(w, step) && Full(w, ch)
    ensures Full(After(w, step), ch)
  {
  }

  lemma {:induction false} StaysFull(worlds: seq<World>, steps: seq<Step>, ch: nat, i: nat, j: nat)
    requires Run(worlds, steps) && i <= j < |worlds| && Full(worlds[i], ch)
    ensures Full(worlds[j], ch)
  {
    hide Enabled, After, Full;
    if i < j {
      StaysFull(worlds, steps, ch, i, j - 1);
      StepStaysFull(worlds[j - 1], steps[j - 1], ch);
    }
  }

  /** A new connection, and then nothing but broadcasts. */
  ghost predicate Busy(worlds: seq<World>, steps: seq<Step>, n: nat) {
    && Run(worlds, steps) && |steps| == n + 1 && steps[0] == Connect(0)
    && (forall k :: 0 < k <= n ==> steps[k] == Broadcast)
    && Fanned(steps[1..]) == n
  }

  lemma FirstConnection() returns (worlds: seq<World>, steps: seq<Step>)
    ensures Busy(worlds, steps, 0)
  {
    hide Fanned, After;
    var w := World(0, map[], {}, Client(None, None, []), None, []);
    worlds, steps := [w, After(w, Connect(0))], [Connect(0)];
    FannedOneMore([], Break);
    assert steps[1..] == [];
  }

  lemma OneMoreBroadcast(worlds: seq<World>, steps: seq<Step>)
    requires Run(worlds, steps)
    ensures Run(worlds + [After(worlds[|steps|], Broadcast)], steps + [Broadcast])
  {
    hide After, Initial;
    assert Enabled(worlds[|steps|], Broadcast);
    hide Enabled;
  }

  lemma {:induction false} BusyRun(n: nat) returns (worlds: seq<World>, steps: seq<Step>)
    ensures Busy(worlds, steps, n)
  {
    hide After, Fanned, Run;
    if n == 0 {
      worlds, steps := FirstConnection();
    } else {
      worlds, steps := BusyRun(n - 1);
      OneMoreBroadcast(worlds, steps);
      FannedOneMore(steps[1..], Broadcast);
      assert (steps + [Broadcast])[1..] == steps[1..] + [Broadcast];
      assert |worlds| == |steps| + 1 by { RunLength(worlds, steps); }
      worlds, steps := worlds + [After(worlds[|steps|], Broadcast)], steps + [Broadcast];
    }
  }

  lemma RunLength(worlds: seq<World>, steps: seq<Step>)
    requires Run(worlds, steps)
    ensures |worlds| == |steps| + 1
  {
  }

  /** A run that gets there: 300 messages fanned out between the unlock and the send. */
  lemma SubscribeCanHang() returns (worlds: seq<World>, steps: seq<Step>)
    ensures Run(worlds, steps) && |steps| == CHANNEL_CAPACITY + 1 && steps[0] == Connect(0)
    ensures var last := worlds[|steps|]; 0 in last.subs && !last.subs[0].ready && !Enabled(last, SendSnapshot(0))
  {
    hide Fanned, After;
    worlds, steps := BusyRun(CHANNEL_CAPACITY);
    SubscribeReturnsExactly(worlds, steps, 0, 0, |steps|);
    assert steps[1..|steps|] == steps[1..];
  }

  // ---- Numbers stand for messages ----

  function Number(m: StreamMessage): Message {
    match m
    case TaskActivity(event) => Task(event.sequence)
    case SnapshotMessage(_) => Snap
  }

  function Numbers(ms: seq<StreamMessage>): seq<Message> {
    seq(|ms|, i requires 0 <= i < |ms| => Number(ms[i]))
  }

  /** The agent's own channels, read as numbers, start and grow as the channels here do. */
  lemma ChannelsInNumbers(log: seq<TaskEvent>, after: nat, s: Subscription, buffer: seq<StreamMessage>,
                          m: StreamMessage)
    requires NumberedLog(log) && Numbers(buffer) == s.buffer
    ensures Numbers(Replay(Window(log), after)) == NewSubscription(|log|, after).buffer
    ensures Numbers(Offer(buffer, m)) == Offered(s, Number(m)).buffer
  {
    ReplayIsSuffix(log, after);
  }
}
