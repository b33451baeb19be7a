/** The event stream end to end, over all interleavings of one agent lifetime: the agent emits and
    fans out, connections open, drain and break, the client follows with its two-strike cursor.
    Events go by their numbers here: number n is entry n of the agent's log. */
module Protocol {
  import opened Wrappers
  import opened Stream
  import opened Cursor

  datatype Message = Task(sequence: nat) | Snap

  /** A registered channel: what is in it, whether Subscribe has returned, the number its replay
      started after, and the number of the last task event taken out of it. */
  datatype Subscription = Subscription(buffer: seq<Message>, ready: bool, start: nat, through: nat)

  datatype Client = Client(cursor: Option<nat>, retry: Option<(nat, nat)>, delivered: seq<nat>)

  /** The client's connection: its channel, the Last-Event-ID it was opened with, how many events the agent
      had emitted when it registered the channel, what is on the way, and whether a task event has arrived. */
  datatype Link = Link(channel: nat, after: nat, openSeq: nat, wire: seq<Message>, tasted: bool)

  /** The client gave up on the numbers above `from` up to `to`, on a connection opened at `openSeq`. */
  datatype Jump = Jump(from: nat, to: nat, openSeq: nat)

  datatype World = World(emitted: nat, subs: map<nat, Subscription>, closed: set<nat>,
                         client: Client, link: Option<Link>, jumps: seq<Jump>)

  datatype Step =
    | Emit
    | Broadcast
    | Register(ch: nat, after: nat)
    | Connect(ch: nat)
    | SendSnapshot(ch: nat)
    | Transmit(ch: nat)
    | Unsubscribe(ch: nat)
    | Consume
    | Break

  /** Messages for the numbers above `from` up to `to`. */
  function Tasks(from: nat, to: nat): (r: seq<Message>)
    requires from <= to
  {
    seq(to - from, i requires 0 <= i < to - from => Task(from + 1 + i))
  }

  /** The numbers of the task events among the messages. */
  function TaskIds(ms: seq<Message>): seq<nat> {
    if ms == [] then [] else (if ms[0].Task? then [ms[0].sequence] else []) + TaskIds(ms[1..])
  }

  function Offered(s: Subscription, m: Message): Subscription {
    if |s.buffer| < CHANNEL_CAPACITY then s.(buffer := s.buffer + [m]) else s
  }

  function OfferedToAll(subs: map<nat, Subscription>, m: Message): map<nat, Subscription> {
    map ch | ch in subs :: Offered(subs[ch], m)
  }

  function NewSubscription(emitted: nat, after: nat): Subscription {
    var start := ReplayStart(emitted, after);
    Subscription(Tasks(start, emitted), false, start, start)
  }

  /** The cursor as the agent hears it. */
  function Top(c: Client): nat {
    if c.cursor.Some? then c.cursor.value else 0
  }

  /** A task event reaches the client. */
  function Receive(c: Client, n: nat): (Client, bool) {
    var a := AdvanceNumber(c.cursor, n, c.retry);
    (Client(Some(a.cursor), a.retry, if a.gap then c.delivered else c.delivered + [n]), a.gap)
  }

  /** A second strike moves the cursor without delivering. */
  function JumpOf(c: Client, after: Client, openSeq: nat): seq<Jump> {
    if after.cursor != c.cursor && after.delivered == c.delivered then [Jump(Top(c), Top(after), openSeq)] else []
  }

  predicate Enabled(w: World, step: Step) {
    match step
    case Emit => true
    case Broadcast => true
    case Register(ch, _) => ch !in w.subs && ch !in w.closed
    case Connect(ch) => ch !in w.subs && ch !in w.closed && w.link == None
    case SendSnapshot(ch) => ch in w.subs && !w.subs[ch].ready && |w.subs[ch].buffer| < CHANNEL_CAPACITY
    case Transmit(ch) => ch in w.subs && w.subs[ch].ready && w.subs[ch].buffer != []
    case Unsubscribe(ch) => ch in w.subs && w.subs[ch].ready
    case Consume => w.link.Some? && w.link.value.wire != []
    case Break => w.link.Some?
  }

  function AfterTransmit(w: World, ch: nat): World
    requires Enabled(w, Transmit(ch))
  {
    var sub := w.subs[ch];
    var m := sub.buffer[0];
    w.(subs := w.subs[ch := sub.(buffer := sub.buffer[1..], through := if m.Task? then m.sequence else sub.through)],
       link := if w.link.Some? && w.link.value.channel == ch then Some(w.link.value.(wire := w.link.value.wire + [m]))
           else w.link)
  }

  function AfterConsume(w: World): World
    requires Enabled(w, Consume)
  {
    var link := w.link.value;
    var rest := link.(wire := link.wire[1..]);
    match link.wire[0]
    case Snap => w.(link := Some(rest))
    case Task(n) =>
      var (client, gap) := Receive(w.client, n);
      w.(client := client, jumps := w.jumps + JumpOf(w.client, client, link.openSeq),
         link := if gap then None else Some(rest.(tasted := true)))
  }

  function After(w: World, step: Step): World
    requires Enabled(w, step)
  {
    match step
    case Emit => w.(emitted := w.emitted + 1, subs := OfferedToAll(w.subs, Task(w.emitted + 1)))
    case Broadcast => w.(subs := OfferedToAll(w.subs, Snap))
    case Register(ch, after) => w.(subs := w.subs[ch := NewSubscription(w.emitted, after)])
    case Connect(ch) =>
      w.(subs := w.subs[ch := NewSubscription(w.emitted, Top(w.client))],
         link := Some(Link(ch, Top(w.client), w.emitted, [], false)))
    case SendSnapshot(ch) => w.(subs := w.subs[ch := w.subs[ch].(buffer := w.subs[ch].buffer + [Snap], ready := true)])
    case Transmit(ch) => AfterTransmit(w, ch)
    case Unsubscribe(ch) => w.(subs := w.subs - {ch}, closed := w.closed + {ch})
    case Consume => AfterConsume(w)
    case Break => w.(link := None)
  }

  ghost predicate Initial(w: World) {
    w == World(0, map[], {}, Client(None, None, []), None, [])
  }

  ghost predicate Run(worlds: seq<World>, steps: seq<Step>) {
    && |worlds| == |steps| + 1
    && Initial(worlds[0])
    && (forall i {:trigger steps[i]} :: 0 <= i < |steps| ==>
        Enabled(worlds[i], steps[i]) && worlds[i + 1] == After(worlds[i], steps[i]))
  }

  // ---- What always holds ----

  /** Strictly increasing numbers above `above` up to `upTo`. */
  predicate Rising(ids: seq<nat>, above: nat, upTo: nat) {
    && (forall i :: 0 <= i < |ids| ==> above < ids[i] <= upTo)
    && (forall i, j :: 0 <= i < j < |ids| ==> ids[i] < ids[j])
  }

  predicate SubInv(s: Subscription, emitted: nat) {
    && |s.buffer| <= CHANNEL_CAPACITY && s.start <= s.through <= emitted
    && Rising(TaskIds(s.buffer), s.through, emitted)
  }

  predicate AgentInv(emitted: nat, subs: map<nat, Subscription>, closed: set<nat>) {
    && (forall ch :: ch in subs ==> SubInv(subs[ch], emitted))
    && subs.Keys !! closed
  }

  predicate ClientInv(c: Client, emitted: nat) {
    && Rising(c.delivered, 0, Top(c)) && Top(c) <= emitted
    && (c.cursor == None <==> c.delivered == [])
    && (c.retry.Some? ==> c.cursor == Some(c.retry.value.0) && c.retry.value.0 + 1 < c.retry.value.1 <= emitted)
  }

  /** The numbers the connection will still bring, as far as they have been put in its channel. */
  function Pipe(link: Link, subs: map<nat, Subscription>): seq<nat> {
    TaskIds(link.wire) + (if link.channel in subs then TaskIds(subs[link.channel].buffer) else [])
  }

  /** Until a first task event arrives, what comes first is the oldest event retained when the connection opened. */
  predicate FirstIsOldest(link: Link, pipe: seq<nat>, registered: bool) {
    !link.tasted && link.openSeq > link.after ==>
      && (pipe != [] ==> pipe[0] == ReplayStart(link.openSeq, link.after) + 1)
      && (registered ==> pipe != [])
  }

  predicate LinkInv(link: Link, c: Client, subs: map<nat, Subscription>, closed: set<nat>, emitted: nat) {
    && link.channel in subs.Keys + closed
    && link.after <= link.openSeq <= emitted
    && Rising(Pipe(link, subs), Top(c), emitted)
    && (!link.tasted ==> Top(c) == link.after)
    && FirstIsOldest(link, Pipe(link, subs), link.channel in subs)
    && (c.retry.Some? ==> !link.tasted && link.openSeq >= c.retry.value.1)
  }

  predicate Skipped(jumps: seq<Jump>, n: nat) {
    exists j :: 0 <= j < |jumps| && jumps[j].from < n <= jumps[j].to
  }

  /** Between the first delivered number and the cursor, every number was delivered or jumped over,
      and no jump went beyond what the window had lost before the connection it was made on opened. */
  predicate NothingSilent(c: Client, jumps: seq<Jump>) {
    && (forall n :: c.delivered != [] && c.delivered[0] <= n <= Top(c) ==> n in c.delivered || Skipped(jumps, n))
    && (forall j :: 0 <= j < |jumps| ==> jumps[j].to <= Evicted(jumps[j].openSeq))
  }

  predicate WorldInv(w: World) {
    && AgentInv(w.emitted, w.subs, w.closed)
    && ClientInv(w.client, w.emitted)
    && (w.link.Some? ==> LinkInv(w.link.value, w.client, w.subs, w.closed, w.emitted))
    && NothingSilent(w.client, w.jumps)
  }

  // ---- Numbers in messages ----

  lemma {:induction false} IdsConcat(a: seq<Message>, b: seq<Message>)
    ensures TaskIds(a + b) == TaskIds(a) + TaskIds(b)
  {
    if a == [] {
      assert a + b == b;
    } else {
      assert (a + b)[0] == a[0] && (a + b)[1..] == a[1..] + b;
      IdsConcat(a[1..], b);
      var first := if a[0].Task? then [a[0].sequence] else [];
      assert first + (TaskIds(a[1..]) + TaskIds(b)) == (first + TaskIds(a[1..])) + TaskIds(b);
    }
  }

  lemma {:induction false} IdsOfTasks(from: nat, last: nat)
    requires from <= last
    ensures |TaskIds(Tasks(from, last))| == last - from
    ensures forall i :: 0 <= i < last - from ==> TaskIds(Tasks(from, last))[i] == from + 1 + i
    decreases last - from
  {
    if from < last {
      assert Tasks(from, last)[1..] == Tasks(from + 1, last);
      IdsOfTasks(from + 1, last);
    }
  }

  /** One more message: its number, if it is the next one, keeps the order. */
  lemma OfferedInv(s: Subscription, m: Message, emitted: nat)
    requires SubInv(s, emitted)
    ensures m == Snap ==> SubInv(Offered(s, m), emitted)
    ensures m == Task(emitted + 1) ==> SubInv(Offered(s, m), emitted + 1)
    ensures TaskIds(Offered(s, m).buffer) ==
            TaskIds(s.buffer) + (if m.Task? && |s.buffer| < CHANNEL_CAPACITY then [m.sequence] else [])
  {
    IdsConcat(s.buffer, [m]);
    assert TaskIds([m]) == if m.Task? then [m.sequence] else [];
  }

  // ---- Every step keeps it ----

  /** Fan-out seen from the client's connection: the pipe grows by the new number, unless its channel is full or
      gone. */
  lemma PipeAfterOffer(link: Link, subs: map<nat, Subscription>, m: Message, emitted: nat)
    requires forall ch :: ch in subs ==> SubInv(subs[ch], emitted)
    ensures var after := Pipe(link, OfferedToAll(subs, m));
            after == Pipe(link, subs) || (m.Task? && after == Pipe(link, subs) + [m.sequence])
  {
    if link.channel in subs {
      OfferedInv(subs[link.channel], m, emitted);
    }
  }

  lemma EmitKeepsInv(w: World)
    requires WorldInv(w)
    ensures WorldInv(After(w, Emit))
  {
    hide NothingSilent, SubInv, Offered, TaskIds;
    var w' := After(w, Emit);
    forall ch | ch in w'.subs ensures SubInv(w'.subs[ch], w'.emitted) {
      OfferedInv(w.subs[ch], Task(w.emitted + 1), w.emitted);
    }
    if w.link.Some? {
      PipeAfterOffer(w.link.value, w.subs, Task(w.emitted + 1), w.emitted);
    }
  }

  lemma BroadcastKeepsInv(w: World)
    requires WorldInv(w)
    ensures WorldInv(After(w, Broadcast))
  {
    hide NothingSilent, SubInv, Offered, TaskIds;
    var w' := After(w, Broadcast);
    forall ch | ch in w'.subs ensures SubInv(w'.subs[ch], w'.emitted) {
      OfferedInv(w.subs[ch], Snap, w.emitted);
    }
    if w.link.Some? {
      PipeAfterOffer(w.link.value, w.subs, Snap, w.emitted);
    }
  }

  /** A replay fits the channel and brings, in order, exactly the retained numbers above `after`. */
  lemma NewSubscriptionInv(emitted: nat, after: nat)
    ensures var s := NewSubscription(emitted, after);
            && SubInv(s, emitted) && |s.buffer| <= EVENT_HISTORY_LIMIT < CHANNEL_CAPACITY
            && (after <= emitted ==> after <= s.start && Rising(TaskIds(s.buffer), after, emitted))
            && (forall n :: n in TaskIds(s.buffer) <==> after < n <= emitted && Evicted(emitted) < n)
            && (emitted > after ==> TaskIds(s.buffer) != [] && TaskIds(s.buffer)[0] == ReplayStart(emitted, after) + 1)
  {
    var start := ReplayStart(emitted, after);
    IdsOfTasks(start, emitted);
    var ids := TaskIds(Tasks(start, emitted));
    forall n ensures n in ids <==> after < n <= emitted && Evicted(emitted) < n {
      if after < n <= emitted && Evicted(emitted) < n {
        assert ids[n - start - 1] == n;
      }
    }
  }

  lemma RegisterKeepsInv(w: World, ch: nat, after: nat)
    requires WorldInv(w) && Enabled(w, Register(ch, after))
    ensures WorldInv(After(w, Register(ch, after)))
  {
    hide NothingSilent, SubInv, NewSubscription;
    NewSubscriptionInv(w.emitted, after);
  }

  lemma OpenedLinkInv(w: World, ch: nat)
    requires ClientInv(w.client, w.emitted) && Enabled(w, Connect(ch))
    ensures var w' := After(w, Connect(ch)); LinkInv(w'.link.value, w.client, w'.subs, w.closed, w.emitted)
  {
    hide NewSubscription, TaskIds, Pipe, Rising, After, Enabled, ReplayStart;
    ReplayRises(w.emitted, Top(w.client));
    OpenPipe(w, ch);
  }

  lemma ReplayRises(emitted: nat, after: nat)
    requires after <= emitted
    ensures var ids := TaskIds(NewSubscription(emitted, after).buffer);
            Rising(ids, after, emitted) && (emitted > after ==> ids != [] && ids[0] == ReplayStart(emitted, after) + 1)
  {
    NewSubscriptionInv(emitted, after);
  }

  lemma ConnectKeepsInv(w: World, ch: nat)
    requires WorldInv(w) && Enabled(w, Connect(ch))
    ensures WorldInv(After(w, Connect(ch)))
  {
    hide NothingSilent, NewSubscription, SubInv, ClientInv, LinkInv;
    NewSubscriptionInv(w.emitted, Top(w.client));
    OpenedLinkInv(w, ch);
    hide TaskIds;
  }

  lemma OpenPipe(w: World, ch: nat)
    requires Enabled(w, Connect(ch))
    ensures var w' := After(w, Connect(ch));
            && w'.link == Some(Link(ch, Top(w.client), w.emitted, [], false)) && ch in w'.subs
            && Pipe(w'.link.value, w'.subs) == TaskIds(NewSubscription(w.emitted, Top(w.client)).buffer)
  {
  }

  lemma SendSnapshotKeepsInv(w: World, ch: nat)
    requires WorldInv(w) && Enabled(w, SendSnapshot(ch))
    ensures WorldInv(After(w, SendSnapshot(ch)))
  {
    hide NothingSilent, TaskIds;
    var w' := After(w, SendSnapshot(ch));
    OfferedInv(w.subs[ch], Snap, w.emitted);
    assert TaskIds(w'.subs[ch].buffer) == TaskIds(w.subs[ch].buffer);
    if w.link.Some? {
      assert Pipe(w.link.value, w'.subs) == Pipe(w.link.value, w.subs);
    }
  }

  /** Taking a message out: its number is above all taken before, and below all that stay. */
  lemma Taken(s: Subscription, emitted: nat)
    requires SubInv(s, emitted) && s.buffer != []
    ensures var m, rest := s.buffer[0], s.buffer[1..];
            && TaskIds(s.buffer) == TaskIds([m]) + TaskIds(rest)
            && (m.Task? ==> s.through < m.sequence <= emitted)
            && SubInv(s.(buffer := rest, through := if m.Task? then m.sequence else s.through), emitted)
  {
    var m, rest := s.buffer[0], s.buffer[1..];
    assert s.buffer == [m] + rest;
    IdsConcat([m], rest);
    assert TaskIds([m]) == if m.Task? then [m.sequence] else [];
    assert m.Task? ==> TaskIds(s.buffer)[0] == m.sequence;
    forall i | 0 <= i < |TaskIds(rest)| ensures TaskIds(rest)[i] == TaskIds(s.buffer)[i + |TaskIds([m])|] {}
  }

  lemma TransmitKeepsInv(w: World, ch: nat)
    requires WorldInv(w) && Enabled(w, Transmit(ch))
    ensures WorldInv(After(w, Transmit(ch)))
  {
    hide NothingSilent, SubInv, TaskIds;
    var w' := After(w, Transmit(ch));
    Taken(w.subs[ch], w.emitted);
    if w.link.Some? {
      IdsConcat(w.link.value.wire, [w.subs[ch].buffer[0]]);
      assert Pipe(w'.link.value, w'.subs) == Pipe(w.link.value, w.subs);
    }
  }

  lemma UnsubscribeKeepsInv(w: World, ch: nat)
    requires WorldInv(w) && Enabled(w, Unsubscribe(ch))
    ensures WorldInv(After(w, Unsubscribe(ch)))
  {
    hide NothingSilent, SubInv, TaskIds;
    if w.link.Some? {
      var pipe, rest := Pipe(w.link.value, w.subs), Pipe(w.link.value, After(w, Unsubscribe(ch)).subs);
      assert rest == pipe[..|rest|];
    }
  }

  /** What the client makes of a number above its cursor. */
  lemma Received(c: Client, n: nat, emitted: nat)
    requires ClientInv(c, emitted) && Top(c) < n <= emitted
    ensures var (c', gap) := Receive(c, n);
            && ClientInv(c', emitted)
            && (!gap ==> Top(c') == n && c'.retry == None && c'.delivered == c.delivered + [n]
                         && (c.cursor.Some? ==> n == Top(c) + 1))
            && (gap ==> c'.delivered == c.delivered != []
                        && (c' == c.(retry := Some((Top(c), n)))
                            || (c.retry == Some((Top(c), n)) && Top(c') == n - 1 && c'.retry == None)))
  {
  }

  /** A jump is made only over what the window had lost when the connection opened. */
  lemma JumpIsEvicted(link: Link, w: World, n: nat)
    requires WorldInv(w) && w.link == Some(link) && Pipe(link, w.subs) != [] && Pipe(link, w.subs)[0] == n
    requires w.client.retry == Some((Top(w.client), n))
    ensures n - 1 <= Evicted(link.openSeq)
  {
  }

  lemma JumpsCover(c: Client, c': Client, jumps: seq<Jump>, jump: Jump)
    requires NothingSilent(c, jumps) && c'.delivered == c.delivered
    requires jump.from == Top(c) && jump.to == Top(c') && jump.to <= Evicted(jump.openSeq)
    ensures NothingSilent(c', jumps + [jump])
  {
    var more := jumps + [jump];
    forall n | c'.delivered != [] && c'.delivered[0] <= n <= Top(c') ensures n in c'.delivered || Skipped(more, n) {
      if n > Top(c) {
        assert more[|jumps|].from < n <= more[|jumps|].to;
      } else if Skipped(jumps, n) {
        var j :| 0 <= j < |jumps| && jumps[j].from < n <= jumps[j].to;
        assert more[j] == jumps[j];
      }
    }
  }

  lemma DeliveryCovers(c: Client, c': Client, jumps: seq<Jump>, n: nat)
    requires NothingSilent(c, jumps) && c'.delivered == c.delivered + [n] && Top(c') == n
    requires c.cursor.Some? ==> n == Top(c) + 1
    requires c.cursor == None <==> c.delivered == []
    ensures NothingSilent(c', jumps)
  {
    assert n in c'.delivered;
  }

  lemma HeadOfWire(link: Link, subs: map<nat, Subscription>)
    requires link.wire != []
    ensures var m := link.wire[0];
            Pipe(link, subs) == (if m.Task? then [m.sequence] else []) + Pipe(link.(wire := link.wire[1..]), subs)
  {
    var m, rest := link.wire[0], link.wire[1..];
    assert link.wire == [m] + rest;
    IdsConcat([m], rest);
    assert TaskIds([m]) == if m.Task? then [m.sequence] else [];
  }

  /** A task event that is taken. */
  lemma DeliveryKeepsInv(w: World, n: nat)
    requires WorldInv(w) && Enabled(w, Consume) && w.link.value.wire[0] == Task(n) && !Receive(w.client, n).1
    ensures WorldInv(AfterConsume(w))
  {
    hide SubInv, Receive, NothingSilent, AgentInv, ClientInv, TaskIds;
    HeadOfWire(w.link.value, w.subs);
    assert Pipe(w.link.value, w.subs)[0] == n;
    Received(w.client, n, w.emitted);
    ClientFacts(w.client, w.emitted);
    DeliveryCovers(w.client, Receive(w.client, n).0, w.jumps, n);
    var rest := w.link.value.(wire := w.link.value.wire[1..], tasted := true);
    forall i | 0 <= i < |Pipe(rest, w.subs)| ensures Pipe(rest, w.subs)[i] == Pipe(w.link.value, w.subs)[i + 1] {}
    assert w.jumps + [] == w.jumps;
  }

  lemma ClientFacts(c: Client, emitted: nat)
    requires ClientInv(c, emitted)
    ensures c.cursor == None <==> c.delivered == []
    ensures c.retry.Some? ==> Top(c) + 1 < c.retry.value.1
  {
  }

  /** A task event that is refused. */
  lemma GapKeepsInv(w: World, n: nat)
    requires WorldInv(w) && Enabled(w, Consume) && w.link.value.wire[0] == Task(n) && Receive(w.client, n).1
    ensures WorldInv(AfterConsume(w))
  {
    hide SubInv, Receive, NothingSilent, AgentInv, ClientInv, TaskIds, Pipe;
    HeadOfWire(w.link.value, w.subs);
    assert Pipe(w.link.value, w.subs)[0] == n;
    Received(w.client, n, w.emitted);
    ClientFacts(w.client, w.emitted);
    var c' := Receive(w.client, n).0;
    if c'.cursor == w.client.cursor {
      SameCovers(w.client, c', w.jumps);
      assert w.jumps + [] == w.jumps;
    } else {
      JumpIsEvicted(w.link.value, w, n);
      JumpsCover(w.client, c', w.jumps, Jump(Top(w.client), Top(c'), w.link.value.openSeq));
    }
  }

  lemma SameCovers(c: Client, c': Client, jumps: seq<Jump>)
    requires NothingSilent(c, jumps) && c'.delivered == c.delivered && c'.cursor == c.cursor
    ensures NothingSilent(c', jumps)
  {
  }

  lemma SnapKeepsInv(w: World)
    requires WorldInv(w) && Enabled(w, Consume) && w.link.value.wire[0] == Snap
    ensures WorldInv(AfterConsume(w))
  {
    hide NothingSilent, AgentInv, ClientInv, TaskIds;
    HeadOfWire(w.link.value, w.subs);
    assert Pipe(w.link.value.(wire := w.link.value.wire[1..]), w.subs) == Pipe(w.link.value, w.subs);
  }

  lemma ConsumeKeepsInv(w: World)
    requires WorldInv(w) && Enabled(w, Consume)
    ensures WorldInv(After(w, Consume))
  {
    hide WorldInv, Receive, AfterConsume;
    match w.link.value.wire[0]
    case Snap =>
      SnapKeepsInv(w);
    case Task(n) =>
      if Receive(w.client, n).1 {
        GapKeepsInv(w, n);
      } else {
        DeliveryKeepsInv(w, n);
      }
  }

  lemma StepKeepsInv(w: World, step: Step)
    requires WorldInv(w) && Enabled(w, step)
    ensures WorldInv(After(w, step))
  {
    hide WorldInv, Enabled, After;
    match step
    case Emit => EmitKeepsInv(w);
    case Broadcast => BroadcastKeepsInv(w);
    case Register(ch, after) => RegisterKeepsInv(w, ch, after);
    case Connect(ch) => ConnectKeepsInv(w, ch);
    case SendSnapshot(ch) => SendSnapshotKeepsInv(w, ch);
    case Transmit(ch) => TransmitKeepsInv(w, ch);
    case Unsubscribe(ch) => UnsubscribeKeepsInv(w, ch);
    case Consume => ConsumeKeepsInv(w);
    case Break => BreakKeepsInv(w);
  }

  lemma BreakKeepsInv(w: World)
    requires WorldInv(w) && Enabled(w, Break)
    ensures WorldInv(After(w, Break))
  {
    hide NothingSilent, AgentInv, ClientInv, LinkInv;
  }

  lemma {:induction false} InvAlways(worlds: seq<World>, steps: seq<Step>, i: nat)
    requires Run(worlds, steps) && i < |worlds|
    ensures WorldInv(worlds[i])
  {
    hide WorldInv, Enabled, After;
    if i == 0 {
      assert WorldInv(worlds[0]) by {
        InitialInv(worlds[0]);
      }
    } else {
      InvAlways(worlds, steps, i - 1);
      StepKeepsInv(worlds[i - 1], steps[i - 1]);
    }
  }

  lemma InitialInv(w: World)
    requires Initial(w)
    ensures WorldInv(w)
  {
  }
}
