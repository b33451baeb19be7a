/** A run in which a client drops three connections over gaps after the agent has fallen silent: the bound of
    `Recovery.QuietStretchAborts` is reached. */
module ThreeAborts {
  import opened Wrappers
  import opened Stream
  import opened Protocol
  import opened Recovery

  // ---- Runs that reach a state ----

  /** The run ends in `w`; from its state `i` on nothing was emitted, and the client dropped `n` connections over
      gaps. */
  ghost predicate Reaches(worlds: seq<World>, steps: seq<Step>, i: nat, w: World, n: nat) {
    && Run(worlds, steps) && i <= |steps| && worlds[|steps|] == w
    && (forall k :: i <= k < |steps| ==> !steps[k].Emit?)
    && GapAborts(worlds, steps, i, |steps|) == n
  }

  ghost predicate Reached(w: World) {
    exists worlds, steps :: Reaches(worlds, steps, |steps|, w, 0)
  }

  /** Some state `from` is reached, and from there `w`, with `n` drops in silence. */
  ghost predicate ReachedFrom(from: World, w: World, n: nat) {
    exists worlds, steps, i: nat :: Reaches(worlds, steps, i, w, n) && worlds[i] == from
  }

  lemma {:induction false} GapAbortsKept(worlds: seq<World>, steps: seq<Step>, longer: seq<World>, more: seq<Step>,
                                         i: nat, j: nat)
    requires Run(worlds, steps) && Run(longer, more) && worlds <= longer && steps <= more && i <= j <= |steps|
    ensures GapAborts(longer, more, i, j) == GapAborts(worlds, steps, i, j)
  {
    hide Enabled, After, DropsOverGap;
    if i < j {
      GapAbortsKept(worlds, steps, longer, more, i, j - 1);
    }
  }

  lemma RunOn(worlds: seq<World>, steps: seq<Step>, step: Step)
    requires Run(worlds, steps) && Enabled(worlds[|steps|], step)
    ensures Run(worlds + [After(worlds[|steps|], step)], steps + [step])
  {
    hide Enabled, After;
  }

  lemma GoOn(from: World, w: World, n: nat, step: Step)
    requires ReachedFrom(from, w, n) && Enabled(w, step) && !step.Emit?
    ensures ReachedFrom(from, After(w, step), n + if DropsOverGap(w, step) then 1 else 0)
  {
    hide Enabled, After, DropsOverGap, Initial;
    var worlds, steps, i: nat :| Reaches(worlds, steps, i, w, n) && worlds[i] == from;
    RunOn(worlds, steps, step);
    var longer, more := worlds + [After(w, step)], steps + [step];
    GapAbortsKept(worlds, steps, longer, more, i, |steps|);
    assert Reaches(longer, more, i, After(w, step), n + if DropsOverGap(w, step) then 1 else 0);
  }

  lemma ReachNext(w: World, step: Step)
    requires Reached(w) && Enabled(w, step)
    ensures Reached(After(w, step))
  {
    hide Enabled, After, DropsOverGap, Initial;
    var worlds, steps :| Reaches(worlds, steps, |steps|, w, 0);
    RunOn(worlds, steps, step);
    var longer, more := worlds + [After(w, step)], steps + [step];
    assert Reaches(longer, more, |more|, After(w, step), 0);
  }

  lemma FallSilent(w: World)
    requires Reached(w)
    ensures ReachedFrom(w, w, 0)
  {
    hide Enabled, After, Initial;
    var worlds, steps :| Reaches(worlds, steps, |steps|, w, 0);
    assert Reaches(worlds, steps, |steps|, w, 0) && worlds[|steps|] == w;
  }

  // ---- The agent, up to its last event ----

  function Snaps(n: nat): seq<Message> {
    seq(n, _ => Snap)
  }

  /** Number 1 has been delivered; the client's channel holds this, and this is on the way. */
  function Following1(emitted: nat, buffer: seq<Message>, wire: seq<Message>): World {
    World(emitted, map[0 := Subscription(buffer, true, 0, 1)], {}, Client(Some(1), None, [1]),
          Some(Link(0, 0, 0, wire, true)), [])
  }

  lemma EmptyIsReached()
    ensures Reached(World(0, map[], {}, Client(None, None, []), None, []))
  {
    var w := World(0, map[], {}, Client(None, None, []), None, []);
    assert Reaches([w], [], 0, w, 0);
  }

  function Connected(buffer: seq<Message>, ready: bool, emitted: nat, through: nat, wire: seq<Message>): World {
    World(emitted, map[0 := Subscription(buffer, ready, 0, through)], {}, Client(None, None, []),
          Some(Link(0, 0, 0, wire, false)), [])
  }

  lemma ConnectsFirst()
    ensures Reached(Connected([], false, 0, 0, []))
  {
    hide Reached;
    EmptyIsReached();
    var w := World(0, map[], {}, Client(None, None, []), None, []);
    ReachNext(w, Connect(0));
    assert Tasks(0, 0) == [];
    assert After(w, Connect(0)) == Connected([], false, 0, 0, []);
  }

  lemma EmitsFirst()
    ensures Reached(Connected([Snap, Task(1)], true, 1, 0, []))
  {
    hide Reached;
    ConnectsFirst();
    var w := Connected([], false, 0, 0, []);
    ReachNext(w, SendSnapshot(0));
    var w1 := Connected([Snap], true, 0, 0, []);
    assert [] + [Snap] == [Snap] && [Snap] + [Task(1)] == [Snap, Task(1)];
    assert After(w, SendSnapshot(0)).subs == w1.subs;
    assert After(w, SendSnapshot(0)) == w1;
    ReachNext(w1, Emit);
    assert After(w1, Emit).subs == Connected([Snap, Task(1)], true, 1, 0, []).subs;
    assert After(w1, Emit) == Connected([Snap, Task(1)], true, 1, 0, []);
  }

  lemma TransmitsFirst()
    ensures Reached(Connected([], true, 1, 1, [Snap, Task(1)]))
  {
    hide Reached;
    EmitsFirst();
    var w := Connected([Snap, Task(1)], true, 1, 0, []);
    ReachNext(w, Transmit(0));
    var w1 := Connected([Task(1)], true, 1, 0, [Snap]);
    assert [Snap, Task(1)][1..] == [Task(1)] && [] + [Snap] == [Snap];
    assert After(w, Transmit(0)).subs == w1.subs;
    assert After(w, Transmit(0)) == w1;
    ReachNext(w1, Transmit(0));
    assert [Task(1)][1..] == [] && [Snap] + [Task(1)] == [Snap, Task(1)];
    assert After(w1, Transmit(0)).subs == Connected([], true, 1, 1, []).subs;
    assert After(w1, Transmit(0)) == Connected([], true, 1, 1, [Snap, Task(1)]);
  }

  lemma DeliversFirst()
    ensures Reached(Following1(1, Snaps(0), []))
  {
    hide Reached;
    TransmitsFirst();
    var w := Connected([], true, 1, 1, [Snap, Task(1)]);
    ReachNext(w, Consume);
    assert [Snap, Task(1)][1..] == [Task(1)] && [Task(1)][1..] == [] && Snaps(0) == [];
    var w1 := Connected([], true, 1, 1, [Task(1)]);
    assert After(w, Consume) == w1;
    ReachNext(w1, Consume);
    assert w1.client.delivered + [1] == [1];
    assert Receive(w1.client, 1) == (Client(Some(1), None, [1]), false);
    assert w1.jumps + JumpOf(w1.client, Client(Some(1), None, [1]), 0) == [];
    assert After(w1, Consume) == Following1(1, Snaps(0), []);
  }

  lemma {:induction false} Fills(n: nat)
    requires n <= CHANNEL_CAPACITY
    ensures Reached(Following1(1, Snaps(n), []))
  {
    hide Reached;
    if n == 0 {
      DeliversFirst();
    } else {
      Fills(n - 1);
      var w := Following1(1, Snaps(n - 1), []);
      ReachNext(w, Broadcast);
      assert Snaps(n - 1) + [Snap] == Snaps(n);
      assert After(w, Broadcast) == Following1(1, Snaps(n), []);
    }
  }

  /** Number 2 finds the channel full, number 3 finds room. */
  lemma DropsTwo()
    ensures Reached(Following1(3, Snaps(299) + [Task(3)], []))
  {
    hide Reached;
    Fills(300);
    var w := Following1(1, Snaps(300), []);
    ReachNext(w, Emit);
    var w1 := Following1(2, Snaps(300), []);
    assert After(w, Emit) == w1;
    ReachNext(w1, Transmit(0));
    var w2 := Following1(2, Snaps(299), [Snap]);
    assert Snaps(300)[1..] == Snaps(299) && [] + [Snap] == [Snap] && [Snap][1..] == [];
    assert After(w1, Transmit(0)).subs == w2.subs;
    assert After(w1, Transmit(0)) == w2;
    ReachNext(w2, Consume);
    var w3 := Following1(2, Snaps(299), []);
    assert After(w2, Consume) == w3;
    ReachNext(w3, Emit);
    assert After(w3, Emit) == Following1(3, Snaps(299) + [Task(3)], []);
  }

  /** The channel stays full, and the window moves on. */
  lemma {:induction false} MovesOn(emitted: nat)
    requires emitted >= 3
    ensures Reached(Following1(emitted, Snaps(299) + [Task(3)], []))
  {
    hide Reached;
    if emitted == 3 {
      DropsTwo();
    } else {
      MovesOn(emitted - 1);
      var w := Following1(emitted - 1, Snaps(299) + [Task(3)], []);
      ReachNext(w, Emit);
      assert After(w, Emit) == Following1(emitted, Snaps(299) + [Task(3)], []);
    }
  }

  // ---- In silence ----

  /** When the agent falls silent at 259 events, its window starts after number 3. */
  function Silent(): World {
    Following1(259, Snaps(299) + [Task(3)], [])
  }

  lemma {:induction false} Drains(n: nat)
    requires n <= 299
    ensures ReachedFrom(Silent(), Following1(259, Snaps(n) + [Task(3)], []), 0)
    decreases 299 - n
  {
    hide ReachedFrom, Reached;
    if n == 299 {
      MovesOn(259);
      FallSilent(Silent());
    } else {
      hide Silent;
      Drains(n + 1);
      DrainsOne(Silent(), n);
    }
  }

  lemma DrainsOne(from: World, n: nat)
    requires ReachedFrom(from, Following1(259, Snaps(n + 1) + [Task(3)], []), 0)
    ensures ReachedFrom(from, Following1(259, Snaps(n) + [Task(3)], []), 0)
  {
    hide ReachedFrom;
    var w := Following1(259, Snaps(n + 1) + [Task(3)], []);
    GoOn(from, w, 0, Transmit(0));
    assert (Snaps(n + 1) + [Task(3)])[1..] == Snaps(n) + [Task(3)];
    var w1 := Following1(259, Snaps(n) + [Task(3)], [Snap]);
    assert [] + [Snap] == [Snap] && [Snap][1..] == [];
    assert After(w, Transmit(0)).subs == w1.subs;
    assert After(w, Transmit(0)) == w1;
    GoOn(from, w1, 0, Consume);
    assert After(w1, Consume) == Following1(259, Snaps(n) + [Task(3)], []);
  }

  /** Between connections, with this gap remembered. */
  predicate Between(w: World, retry: (nat, nat)) {
    && w.emitted == 259 && w.closed == {} && w.link == None
    && w.client.cursor == Some(1) && w.client.retry == Some(retry)
  }

  /** The open connection is dropped at number 3. */
  lemma FirstDrop() returns (w: World)
    ensures ReachedFrom(Silent(), w, 1) && Between(w, (1, 3)) && w.subs.Keys == {0}
  {
    hide ReachedFrom, Silent;
    Drains(0);
    var w0 := Following1(259, Snaps(0) + [Task(3)], []);
    assert Snaps(0) + [Task(3)] == [Task(3)];
    GoOn(Silent(), w0, 0, Transmit(0));
    var w1 := After(w0, Transmit(0));
    assert w1.link == Some(Link(0, 0, 0, [Task(3)], true)) && w1.client == Client(Some(1), None, [1]);
    GoOn(Silent(), w1, 0, Consume);
    w := After(w1, Consume);
  }

  /** A new connection with its first event on the way. */
  lemma Reconnects(from: World, w: World, n: nat, retry: (nat, nat), ch: nat) returns (w': World)
    requires ReachedFrom(from, w, n) && Between(w, retry) && ch !in w.subs
    ensures ReachedFrom(from, w', n) && w'.client == w.client && w'.emitted == 259 && w'.closed == {}
    ensures w'.link == Some(Link(ch, 1, 259, [Task(4)], false)) && w'.subs.Keys == w.subs.Keys + {ch}
  {
    hide ReachedFrom;
    GoOn(from, w, n, Connect(ch));
    var w1 := After(w, Connect(ch));
    assert w1.subs[ch] == NewSubscription(259, 1);
    assert |Tasks(3, 259)| == 256 && Tasks(3, 259)[0] == Task(4);
    GoOn(from, w1, n, SendSnapshot(ch));
    var w2 := After(w1, SendSnapshot(ch));
    assert w2.subs[ch].buffer[0] == Task(4);
    GoOn(from, w2, n, Transmit(ch));
    w' := After(w2, Transmit(ch));
    assert [] + [Task(4)] == [Task(4)];
  }

  lemma SecondDrop() returns (w: World)
    ensures ReachedFrom(Silent(), w, 2) && Between(w, (1, 4)) && w.subs.Keys == {0, 1}
  {
    hide ReachedFrom, Silent;
    var w0 := FirstDrop();
    var w1 := Reconnects(Silent(), w0, 1, (1, 3), 1);
    GoOn(Silent(), w1, 1, Consume);
    w := After(w1, Consume);
  }

  lemma ThirdDrop() returns (w: World)
    ensures ReachedFrom(Silent(), w, 3) && w.client.cursor == Some(3)
  {
    hide ReachedFrom, Silent;
    var w0 := SecondDrop();
    var w1 := Reconnects(Silent(), w0, 2, (1, 4), 2);
    GoOn(Silent(), w1, 2, Consume);
    w := After(w1, Consume);
  }

  /** Three drops in silence: at 3 on the connection that was open, whose channel had been full for 2, and twice at the
      oldest number retained. */
  lemma ThreeAbortsHappen() returns (worlds: seq<World>, steps: seq<Step>, i: nat)
    ensures Run(worlds, steps) && i <= |steps| && worlds[i].link.Some?
    ensures forall k :: i <= k < |steps| ==> !steps[k].Emit?
    ensures GapAborts(worlds, steps, i, |steps|) == 3
  {
    var w := ThirdDrop();
    worlds, steps, i :| Reaches(worlds, steps, i, w, 3) && worlds[i] == Silent();
  }
}
