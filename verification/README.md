# Codex Monitor, verified

A Dafny model of the Codex Monitor agent and of the Home Assistant client that follows it. The agent merges what it
learns about Codex threads from an app-server, the filesystem and hooks, reports changes as numbered events, and
answers pending requests on a user's behalf. The client follows the event stream across reconnects.

`dafny verify dfyconfig.toml` checks everything.

## How it is built

The agent's code changes fields under a lock, so it is modelled three times over, each level proved against the next:

1. `Merge`, `Hooks`, `Hierarchy`, `Decorate`, `Transitions`, `Stream`, `Model`: the passes, as loops over lists and index
   maps, each proved to compute a function of thread maps. A Go map iteration is a loop that picks any remaining key.
2. `MonitorState` is the agent as a state machine whose steps are its critical sections; `MonitorProofs`,
   `MonitorTheorems`, `MonitorEffects` and `LoopEffects` prove what every run keeps and what each section shows and
   reports. `Monitor` is the object itself, with its fields, its channels and one method for each critical section, each
   proved to be exactly one step.
3. Where the source lets go of the lock, interleavings are explicit: `Control` runs actions in flight over
   `MonitorState`, and `ControlHistories` shows what its hypotheses are for; `Protocol` (with `ProtocolTheorems`,
   `Recovery` and `ThreeAborts`) runs the agent, its channels, the network and the client's cursor; `Rpc` runs the
   callers and the reader of the app-server connection.

`Cursor` and `Sse` are the two ends of the wire as strings, `Shell` the hook command from quoting to argument parsing,
`CurrentThread` the client's own choice of thread. `Decimal`, `Sorting` and `Wrappers` are shared.

A map iteration's effect on decoration is a choice of one pending request for each thread that has any (`IsChoice`);
list orders, clocks and the uptime are left open in every rebuild (`RebuiltWith`). The fields `log`, `broadcast`,
`baseline`, `phase` and `outbox` of `Monitor`, and `jumps`, `issued`, `sent`, `heard`, `swept` in the state machines, are
history: nothing in the source stores them.

## Where the code does other than one would think

- `agent_recovered` is documented (README.md:100, docs/agent-integration-contract.md:213) but unreachable:
  `AgentNeverReportsRecovery`.
- A broken parent chain is documented to fall back to the nearest known parent
  (docs/agent-integration-contract.md:168). The code takes the first unknown ancestor, and on a cycle the thread where
  the chain enters it: `RootExactly`. A root is known exactly when the whole chain is: `KnownRootExactly`, with an
  instance in `UnknownParentIsRoot`. Roots name trees exactly when no thread is on a cycle but with itself:
  `RootsNameTreesExactly`; two threads that are each other's parent are one tree but two workflows:
  `CycleSplitsWorkflows`.
- An idle rebuild is silent exactly when no thread has two pending requests: `QuiescenceExactly`.
- Subscribe sends its snapshot after its unlock, when nobody reads the channel yet. It hangs for good once replay and live
  messages fill the 300 slots before that send: `SubscribeReturnsExactly`, reached in `SubscribeCanHang`.
- The snapshot sent last can be older than one broadcast before it, so replay is not always followed by a current snapshot
  (docs/agent-integration-contract.md:215): `SubscriberIsFreshExactly` says exactly when it is.
- Nothing clears a lost connection a second time, so a request its reader still hands on afterwards is in the table again:
  `LostClientStaysGoneExactly`.
- Two overlapping actions on one request are both sent: `OverlapAnswersTwice`, reached in `OverlapHappens`. So are two
  actions in turn, if the first was told of an error after its response had left: `DishonestErrorHappens`.
- A second reply under one id can stop the app-server reader for good, exactly when the caller has not read the first:
  `ReplyCanStickExactly`, reached in `SecondReplyCanBlock`.
- The client compares `updated_at` as text to find the most recently updated thread of a priority
  (docs/agent-integration-contract.md:170). Within one second that goes wrong exactly when one fraction continues the
  other, as .51 continues .5 and every fraction continues a whole second: `StampOrderExactly`,
  `NewerIsPreferredExactly`.
- The client ranks a running thread above a failed one, as the contract says; the agent's workload ranks them the other
  way round: `CurrentFollowsWorkload`.

## Model

| member | source | states |
|---|---|---|
| ProtocolTheorems.NoSilentLoss | custom_components/codex_monitor/coordinator.py:133-184 | In every run (emissions, drops, broken connections, reconnects in any order), each number between the first delivered and the cursor was delivered, or was already out of the 256-event window when the connection was opened on which the client passed over it; the opening step and the passing step are exhibited |
| ProtocolTheorems.DeliveredInOrder | custom_components/codex_monitor/coordinator.py:133-152 | Across any number of reconnects, gap aborts and cursor jumps the delivered numbers strictly increase, and what was delivered is never taken back |
| Protocol.InvAlways | agent/internal/monitor/monitor.go:93-112 | In every reachable state: subscribers and closed channels are disjoint, no channel holds more than 300 messages, each holds strictly rising numbers above what it already gave out, a remembered gap lies above the cursor and within what was emitted, and the first task event of an untouched connection is the oldest one retained when it opened |
| Protocol.StepKeepsInv | agent/internal/monitor/events.go:69-88 | Each single step of the agent, a channel or the client keeps that invariant |
| Protocol.NewSubscriptionInv | agent/internal/monitor/monitor.go:93-103 | A replay holds exactly the retained numbers above the cursor, at most 256 of them, so it fits the 300-slot channel |
| Protocol.JumpIsEvicted | custom_components/codex_monitor/coordinator.py:176-183 | A second strike never passes over a number the agent still had when the connection opened |
| Protocol.Received | custom_components/codex_monitor/coordinator.py:162-184 | A number above the cursor is either delivered as the cursor's successor (or as the very first), or refused with the gap remembered or the cursor put just before it |
| ProtocolTheorems.OutputRises | agent/internal/monitor/events.go:81-87 | Each subscriber takes out strictly increasing numbers, all above the point its replay started after, for as long as its channel lives |
| ProtocolTheorems.SubscribeReturnsExactly | agent/internal/monitor/monitor.go:98-105 | The snapshot send after Subscribe's unlock can proceed exactly while replay plus messages fanned out since is below 300; from then on Subscribe never returns in any continuation |
| ProtocolTheorems.SubscribeCanHang | agent/internal/monitor/monitor.go:98-105 | A run that gets there, with 300 messages fanned out between the unlock and the send |
| ProtocolTheorems.ChannelsInNumbers | agent/internal/monitor/monitor.go:98-103 | The agent's channels of full messages, read as numbers, start and grow as the numbered channels of the protocol do |
| Recovery.BoundedRecovery | custom_components/codex_monitor/coordinator.py:162-184 | Against a quiet agent, from any cursor up to its sequence and any remembered gap, exactly 0, 1 or 2 connections abort (a count that falls with each), and the next delivers every retained event above the cursor and ends with the cursor at the agent's sequence |
| Recovery.OneAttempt | custom_components/codex_monitor/coordinator.py:133-152 | One connection either goes through and delivers all that is retained above the cursor, or aborts at its first event, which happens exactly when strikes remain, and uses one up |
| Recovery.QuietStretchAborts | custom_components/codex_monitor/coordinator.py:113-184 | In any stretch of any run in which nothing is emitted, the connections opened meanwhile abort over gaps at most twice in all, and no more often than the strikes that remained; one already open can add one abort of its own |
| ThreeAborts.ThreeAbortsHappen | custom_components/codex_monitor/coordinator.py:113-184 | A run that reaches three: at a number behind one its full channel dropped, and twice at the oldest number retained |
| Recovery.QuietConnection | agent/internal/monitor/monitor.go:93-112 | In the interleaved protocol, a connection left alone while nothing is emitted is always on its way to that outcome, whatever else the agent does |
| Recovery.DrainedConnectionCatchesUp | custom_components/codex_monitor/coordinator.py:113-160 | A connection that has brought all it holds has delivered every retained event above the old cursor |
| Recovery.SessionFollows | custom_components/codex_monitor/coordinator.py:113-160 | The coordinator's loop over decimal ids delivers, remembers and aborts as the loop over numbers does |
| Cursor.Coordinator.Follow | custom_components/codex_monitor/coordinator.py:113-160 | One connection's loop leaves cursor, remembered gap, delivered events and shown snapshot as the recursive session does, and ends for the same reason |
| Cursor.SessionTakesPrefix | custom_components/codex_monitor/coordinator.py:117-147 | A connection takes a prefix of its events: it delivers just their task events, in order, and shows their last snapshot; a snapshot of another installation ends it unshown, and only a task event with an id moves the cursor or aborts |
| Cursor.NumbersSuffice | custom_components/codex_monitor/coordinator.py:162-184 | On decimal ids the cursor function, with its string comparison of gaps, computes the same as on numbers |
| Cursor.TwoStrikes | custom_components/codex_monitor/coordinator.py:176-184 | For arbitrary strings, the same event is refused at most twice in a row, a first refusal keeps the cursor, and the third time it is taken |
| Cursor.CursorTravels | agent/internal/httpapi/server.go:160-165 | A cursor below 2^64 reaches the agent as the number it stands for; no cursor is heard as zero |
| Cursor.OtherCursorsAskForAll | agent/internal/httpapi/server.go:160-165 | Only plain digits of a number below 2^64 are heard as that number; anything else asks for all |
| Decimal.DecimalRoundTrip | custom_components/codex_monitor/coordinator.py:170-183 | A printed sequence number reads back as itself under Python's int and Go's ParseUint |
| Stream.RetainKeepsWindow | agent/internal/monitor/events.go:77-80 | Append-and-trim keeps the history equal to the last 256 entries of the full log |
| Stream.ReplayIsSuffix | agent/internal/monitor/monitor.go:98-103 | Replay is one contiguous suffix of the log, from the cursor or the window's edge |
| Stream.RoomKeepsAll | agent/internal/monitor/events.go:81-87 | A channel with room for all it is offered gets all of it, in order |
| Monitor.Monitor.EmitTaskEvent | agent/internal/monitor/events.go:69-88 | The log grows by one numbered event, the history stays its last 256 entries, and every subscriber is offered exactly that event |
| Monitor.Monitor.Subscribe | agent/internal/monitor/monitor.go:93-112 | A new channel holds the retained suffix above the cursor and then the snapshot |
| Monitor.Monitor.Unsubscribe | agent/internal/monitor/monitor.go:106-111 | The channel leaves the subscribers before it is closed, so no later send can reach it |
| Monitor.Monitor.BroadcastSnapshot | agent/internal/monitor/events.go:26-40 | A snapshot goes to every subscriber unless one of the same signature went last |
| Stream.SignatureExactly | agent/internal/monitor/events.go:26-66 | Equal signatures mean snapshots that agree in everything but when they were made, the uptime, the last success, each thread's last update and the daily usage, and the other way round |
| MonitorProofs.BroadcastExactly | agent/internal/monitor/events.go:26-40 | A snapshot is broadcast exactly when it differs from the last one signed in anything but those |
| MonitorProofs.RebuildRefinesPrecedence | agent/internal/monitor/monitor.go:494-520 | For every map iteration order, a rebuild's ids are unique and are those of app, filesystem, live hooks and pending requests together, and each state is waiting for the approval or input of a pending request, else the live hook, else the last known app state, else the filesystem state |
| MonitorProofs.ComposedThread | agent/internal/monitor/events.go:209-237 | One thread through all five passes: state by precedence, and either one pending request in all its fields or none; how its last turn ended is as the app-server's last entry says, and so is its turn if nothing overrides it |
| Merge.MergeThreads | agent/internal/monitor/monitor.go:554-601 | The merged list has each known id once, holding the app entry completed from earlier ones, newest first |
| Merge.MergedState | agent/internal/monitor/monitor.go:586-591 | A merged state, with its source, confidence and time, is the last one the app-server knew, else the last filesystem one, however many entries an id has |
| Merge.MergedText | agent/internal/monitor/monitor.go:562-585 | Session, parent, nickname, role, name, directory, source and version are each the last one an entry of the app-server gives, else the filesystem's |
| Merge.MergedRest | agent/internal/monitor/monitor.go:554-592 | All other fields are those of the app-server's last entry, else of the filesystem's |
| Hooks.ApplyHooks | agent/internal/monitor/hooks.go:118-154 | Whatever order hooks are visited in: expired ones are dropped from the table, live ones override or create their thread, and the count is theirs |
| Hooks.LivesExactly | agent/internal/monitor/hooks.go:98-128 | An observation counts for the configured lifetime of its state, or else for one minute when idle, five when waiting and ten otherwise |
| Hooks.ObservedIsShown | agent/internal/monitor/hooks.go:138-151 | A live observation gives turn, state, event, source and confidence, a directory only where there was none, the later of the two times, and leaves all else |
| Decorate.DecoratePendingRequests | agent/internal/monitor/events.go:209-237 | The pass amounts to choosing one pending request per named thread, and writes exactly that one through |
| Decorate.DecoratedBears | agent/internal/monitor/events.go:221-235 | A decorated thread waits for an approval or for input as its request says, has that request's id, turn, time and controllability on the app-server's word, and keeps the rest |
| Decorate.ChoiceIsForced | agent/internal/monitor/events.go:214-235 | With at most one pending request per thread, iteration order makes no difference |
| Decorate.PendingRequestSnapshot | agent/internal/monitor/events.go:200-207 | Every pending request once, oldest first |
| Monitor.Monitor.Rebuild | agent/internal/monitor/monitor.go:494-520 | The passes, the summary, the event diff and the broadcast together are one rebuild of the specification, and every subscriber was offered exactly what was broadcast |
| Monitor.Monitor.EmitTransitionEvents | agent/internal/monitor/events.go:101-130 | The diff appends exactly the events of the changed threads, in list order, or takes the baseline the first time |
| Monitor.ComposeList | agent/internal/monitor/monitor.go:494-499 | Five list passes, in place where the source works in place, enumerate the pointwise composition |
| Hierarchy.RootExactly | agent/internal/monitor/events.go:171-198 | On any parent map the root is x if and only if x is the topmost or first unknown ancestor, or the thread where the chain enters a cycle (for a cycle member, itself) |
| MonitorTheorems.HierarchyIsShown | agent/internal/monitor/monitor.go:497-499 | At every lock release of every run a thread is shown as a root exactly when it names no parent, with the top of its parent chain, or the entry of its cycle, as its root |
| Hierarchy.AssignThreadHierarchy | agent/internal/monitor/events.go:171-198 | The in-place pass gives every thread the role and root of the walk over the list's own parents |
| Hierarchy.FindRoot | agent/internal/monitor/events.go:183-196 | The loop over a seen set terminates on every graph with the walk's result |
| Hierarchy.RootNamesTree | agent/internal/monitor/events.go:182-196 | Where ancestor chains end, two threads have one root if and only if their chains meet |
| Hierarchy.WorkflowsAreTrees | agent/internal/model/model.go:209-224 | For a list with true roots, the workflows counted are at least the trees that hold an active thread and at most the active workers; they are exactly those trees if and only if no tree holds two active threads that enter its cycle at different threads, and so whenever no thread is on a cycle but with itself |
| MonitorTheorems.WorkflowsShownAreTrees | agent/internal/monitor/monitor.go:497-513 | So it is at every lock release of every run, for the snapshot shown and the parents it shows |
| Hierarchy.RootsNameTreesExactly | agent/internal/monitor/events.go:171-198 | Any two known threads have one root if and only if their chains meet, exactly when the only cycles are threads that are their own parents |
| Hierarchy.RootsAgreeExactly | agent/internal/monitor/events.go:171-198 | The roots a list shows agree within each tree exactly when the parent graph gives the active threads of each tree one entry into its cycle |
| Hierarchy.KnownRootExactly | agent/internal/monitor/events.go:190-195 | The root is a known thread exactly when every ancestor on the chain is; otherwise it is an unknown one |
| Hierarchy.UnknownParentIsRoot | agent/internal/monitor/events.go:190-195 | The root of a thread whose known parent has an unknown parent is that unknown thread |
| Hierarchy.CycleSplitsWorkflows | agent/internal/monitor/events.go:183-196 | Two active threads that are each other's parent are one tree and are counted as two workflows |
| Hierarchy.WalkIgnoresParentless | agent/internal/monitor/events.go:214-220 | Appending parentless threads changes no walk |
| MonitorProofs.SecondHierarchyPassIsIdle | agent/internal/monitor/monitor.go:497-499 | After decoration, which may append threads, the second hierarchy pass changes no role and no root |
| Model.Summarize | agent/internal/model/model.go:174-232 | The one-pass loop computes counters, workflows and first-best workload |
| Model.CountsInWords | agent/internal/model/model.go:174-224 | Threads are counted once for each state they are in, those running or waiting as active and as workers, and their distinct roots, or ids where there is none, as workflows |
| Model.WorkloadInWords | agent/internal/model/model.go:216-231 | The workload is unknown, from no source, if there is nothing or, unshared, nothing active or failed; otherwise state, source and confidence are those of the first thread in the most urgent state there is: approval, input, failure, running, idle |
| Model.CountersPartition | agent/internal/model/model.go:186-208 | The six counters count every thread once |
| Model.WorkloadByPriority | agent/internal/model/model.go:216-231 | Without shared visibility the workload is read off the counters by attention-first priority and is never idle |
| Model.SummaryIgnoresOrder | agent/internal/model/model.go:174-232 | Permuting the threads changes no count and not the workload |
| Model.WorkflowsWithinWorkers | agent/internal/model/model.go:209-224 | There are never more workflows than workers |
| Model.LeaderIsFirstBest | agent/internal/model/model.go:216-221 | The workload is taken from the first thread of the highest rank |
| MonitorTheorems.WorkloadIsNeverIdle | agent/internal/monitor/monitor.go:62-80 | At every lock release of every run, from the first state on, the summary is the unshared one of the list beside it, and its workload is never idle |
| MonitorTheorems.LogIsFaithfulView | agent/internal/monitor/events.go:101-130 | At every lock release of every run, a thread shown running, waiting or failed has a latest event with exactly its state and request id, or it stands as in the baseline and has held both at every lock release since there was something to compare with |
| MonitorTheorems.UnreportedIsHeld | agent/internal/monitor/events.go:111-119 | A notable thread without any event was shown with the same state and request id at every such lock release |
| MonitorTheorems.StepReportsItsChanges | agent/internal/monitor/events.go:111-129 | Each critical section only appends to the log, at most one event per thread, each describing its thread as it is now shown and telling a real change between the two lists shown, with the states before and after and the one kind that fits them and how the thread's last turn ended; and once there is a baseline, or if a live message made it, every change has its event but the silent ones (into an unknown state, idle at first sight, idle from inactivity) |
| Transitions.FaithfulKept | agent/internal/monitor/events.go:101-160 | The diff keeps the log faithful to any new list |
| Transitions.OneEventPerThread | agent/internal/monitor/events.go:111-128 | No thread has two events in one rebuild |
| Transitions.EventIsChange | agent/internal/monitor/events.go:112-119 | Every event belongs to a listed thread that changed |
| Transitions.EventIsDue | agent/internal/monitor/events.go:112-160 | An event is due exactly for a change that is not silent; it describes its thread, and its kind follows from the states before and after and the last turn: an idle thread's is interrupted, failed or completed exactly as that turn was |
| MonitorTheorems.AgentNeverReportsRecovery | agent/internal/monitor/monitor.go:163-187 | No run ever emits the recovery event: the state read before connecting is always "connecting" |
| MonitorTheorems.QuiescenceExactly | agent/internal/monitor/events.go:111-119 | Rebuilding from unchanged inputs is silent under every map order if and only if no thread has two pending requests |
| MonitorTheorems.RestlessWhenOpen | agent/internal/monitor/events.go:214-235 | With two pending requests on one thread there is an iteration order under which the idle rebuild reports an event |
| MonitorTheorems.IdleRebuildIsNotBroadcast | agent/internal/monitor/events.go:26-54 | If the lists and the stale flag also come out the same, no snapshot is broadcast |
| MonitorTheorems.SnapshotsStayFresh | agent/internal/monitor/events.go:26-54 | Deduplication costs no freshness: after every rebuild of every run, the last snapshot offered to a subscriber that joined at any lock release shows the same as the current one but for times, uptime and daily usage |
| MonitorTheorems.ChannelHoldsFreshSnapshot | agent/internal/monitor/monitor.go:93-112 | The same for the last snapshot in the subscriber's own channel, if nothing was dropped |
| MonitorTheorems.SubscriberIsFreshExactly | agent/internal/monitor/monitor.go:98-105 | With the snapshot sent at some later lock release than the unlock, behind what was broadcast in between: after a rebuild the last snapshot in the channel shows the same as the current one exactly when another has followed it or it itself still does |
| MonitorProofs.InvAlways | agent/internal/monitor/monitor.go:494-534 | Every lock release of every run satisfies the agent's invariant |
| MonitorProofs.StepKeepsInv | agent/internal/monitor/monitor.go:411-492 | Each critical section keeps it |
| MonitorProofs.RebuildShowsRequests | agent/internal/monitor/events.go:209-237 | A rebuild leaves the shown threads and the request table in agreement |
| MonitorTheorems.RequestsAreShown | agent/internal/monitor/control.go:103-119 | At every lock release, a thread bears a request id exactly when some pending request names it; that id is one of its requests, the thread waits for an approval or for input as that request does, with its controllability, and no pending request goes unshown |
| MonitorTheorems.EverySectionIsPossible | agent/internal/monitor/monitor.go:494-520 | From every state that satisfies the invariant every enabled section can be carried out, so runs never end in a dead end |
| MonitorEffects.TurnIsShown | agent/internal/monitor/monitor.go:437-476 | After a turn message the thread is shown running if the turn started or is in progress, failed if it failed, idle otherwise, unless a pending request or live hook overrides it or the app-server lists the thread again, later, with a known state; it is shown once, as of that moment, with the turn and how it ended |
| MonitorEffects.TurnIsReported | agent/internal/monitor/events.go:131-160 | Such a message that changes the state shown is reported as what became of the turn: started or resumed, failed, interrupted, or completed |
| MonitorEffects.ChangeIsReported | agent/internal/monitor/events.go:101-130 | Whatever the section, a thread shown in another state than before has a new event that describes it, unless it is in no known state or idle without having been active and without its turn interrupted or failed |
| MonitorEffects.StatusIsShown | agent/internal/monitor/monitor.go:416-436 | A status known to the app-server is what the thread is shown in, however many entries it has there, unless overridden, with the source and time of the message |
| MonitorEffects.RequestIsShown | agent/internal/monitor/control.go:103-119 | A new request makes its thread wait, for an approval or for input as the request says, bearing this very request and its turn if it had none before |
| MonitorEffects.RequestIsReported | agent/internal/monitor/events.go:112-140 | Such a first request is reported, as an approval or an input that is required, under its id |
| MonitorEffects.AnswerIsShown | agent/internal/monitor/control.go:227-235 | An answered request is on no thread any more, no other request is touched, and a thread with no other request bears none |
| MonitorEffects.LossIsShown | agent/internal/monitor/monitor.go:522-534 | A lost connection takes exactly its own requests along, and no thread shows one of them |
| MonitorEffects.ResolvedIsShown | agent/internal/monitor/monitor.go:477-491 | A resolution takes exactly the requests of that app-server id along, leaves the others as they are, and no thread shows one of them |
| ControlHistories.LostClientStaysGoneExactly | agent/internal/monitor/monitor.go:522-534 | From then on the table holds none of its requests exactly as long as none is recorded from it |
| MonitorEffects.InterruptedRequestsAreGone | agent/internal/monitor/control.go:201-206 | An accepted interrupt removes exactly the requests of its turn, and no thread shows one of them |
| MonitorEffects.InterruptIsShown | agent/internal/monitor/control.go:189-207 | It idles the thread, its last turn interrupted, unless a live hook or another turn's request speaks for it |
| MonitorEffects.InterruptIsReported | agent/internal/monitor/events.go:145-151 | If the thread was shown other than idle, that is reported as an interruption of the turn |
| MonitorEffects.HookIsShown | agent/internal/monitor/hooks.go:62-73 | A hook observation is shown from the moment it is received unless a request is pending, and is counted |
| MonitorEffects.OtherHookIsCounted | agent/internal/monitor/hooks.go:62-73 | An event that maps to no state is counted and changes no session |
| LoopEffects.RebuiltShowsInputs | agent/internal/monitor/monitor.go:500-544 | Every rebuild shows the usage and limits it has and how many hooks are live; it is stale exactly when not connected and without a filesystem thread of late, and what the filesystem tells makes an unreached app-server a fallback and a connected one the agent's own |
| LoopEffects.RequestsAreListed | agent/internal/monitor/events.go:200-207 | The snapshot lists exactly the pending requests |
| LoopEffects.ConnectionIsShown | agent/internal/monitor/monitor.go:163-203 | Dialing, its failure and a disconnection are each shown as such, with the error, and touch neither threads nor failure count |
| LoopEffects.ClientIsShown | agent/internal/monitor/monitor.go:178-189 | A new connection is the client from then on, shown as connected, owned by the agent, without error and never stale |
| LoopEffects.RecoveryInWords | agent/internal/monitor/monitor.go:185-187 | The recovery event would be emitted after recovering, disconnected and error, and after nothing else |
| LoopEffects.RefreshIsShown | agent/internal/monitor/monitor.go:306-321 | A refresh shows the app-server's threads, usage and limits and when it answered; it clears the error, and says connected, only if no account read failed |
| LoopEffects.AccountResultIsShown | agent/internal/monitor/monitor.go:381-403 | Failures in a row are counted and a success sets them to zero; at the configured threshold, or the second, the agent is shown recovering since then, and nothing else changes |
| LoopEffects.FilesystemIsShown | agent/internal/monitor/monitor.go:150-154 | Filesystem threads replace the previous ones and leave the app-server's alone |
| Monitor.Monitor.constructor | agent/internal/monitor/monitor.go:62-80 | A new monitor is in the initial state and satisfies the invariant |
| Monitor.Monitor.CollectFilesystem | agent/internal/monitor/monitor.go:150-154 | Collecting filesystem threads is exactly one step of the agent's state machine and keeps the invariant, and every subscriber was offered exactly what it broadcast |
| Monitor.Monitor.SetConnection | agent/internal/monitor/monitor.go:546-552 | A connection state change is exactly one step of the agent's state machine and keeps the invariant, and every subscriber was offered exactly what it broadcast |
| Monitor.Monitor.ConnectClient | agent/internal/monitor/monitor.go:178-189 | Taking a new app-server connection is exactly one step of the agent's state machine and keeps the invariant, and every subscriber was offered exactly what it broadcast |
| Monitor.Monitor.ApplyRefresh | agent/internal/monitor/monitor.go:306-321 | Applying a refresh is exactly one step of the agent's state machine and keeps the invariant, and every subscriber was offered exactly what it broadcast |
| Monitor.Monitor.ClearClient | agent/internal/monitor/monitor.go:522-534 | Losing a connection, with all its requests, is exactly one step of the agent's state machine and keeps the invariant, and every subscriber was offered exactly what it broadcast |
| Monitor.Monitor.ThreadStatusChanged | agent/internal/monitor/monitor.go:416-436 | A thread status message is exactly one step of the agent's state machine and keeps the invariant, and every subscriber was offered exactly what it broadcast |
| Monitor.Monitor.ThreadTurnChanged | agent/internal/monitor/monitor.go:437-476 | A turn message that names a thread is exactly one step of the agent's state machine and keeps the invariant, and every subscriber was offered exactly what it broadcast |
| Monitor.Monitor.ServerRequestResolved | agent/internal/monitor/monitor.go:477-491 | A resolution by the app-server is exactly one step of the agent's state machine and keeps the invariant, and every subscriber was offered exactly what it broadcast |
| Monitor.Monitor.RecordServerRequest | agent/internal/monitor/control.go:47-119 | An understood app-server request is exactly one step of the agent's state machine and keeps the invariant, and every subscriber was offered exactly what it broadcast |
| Monitor.Monitor.RecordHook | agent/internal/monitor/hooks.go:43-74 | A hook event with a name and a session is exactly one step of the agent's state machine and keeps the invariant, and every subscriber was offered exactly what it broadcast |
| Monitor.Monitor.FinishPending | agent/internal/monitor/control.go:227-235 | Finishing an answered request is exactly one step of the agent's state machine and keeps the invariant, and every subscriber was offered exactly what it broadcast |
| Monitor.Monitor.RecordAccountResult | agent/internal/monitor/monitor.go:388-403 | Counts consecutive failures, asks for a restart exactly at the threshold, and keeps the invariant without a rebuild |
| Control.ResponsesAreExact | agent/internal/monitor/control.go:137-172 | In every interleaving of sections and actions in flight, each response went to the connection that issued the request, under its verbatim app-server id, for a controllable request of the thread, turn and kind named, with the word for the decision asked for, among those offered (or complete answers) |
| Control.IdsAreNeverReused | agent/internal/monitor/events.go:239-241 | A request id is given out once, and the table only ever holds what was issued under each id |
| Control.FinishRemovesItsOwn | agent/internal/monitor/control.go:227-235 | Finishing an action takes off exactly its own request, whatever happened to the table since its lookup |
| Control.AtMostOneResponse | agent/internal/monitor/control.go:137-172 | If no two actions on one request are between lookup and finish together, and a Respond that fails sent nothing, each request is answered at most once |
| Control.OverlapAnswersTwice | agent/internal/monitor/control.go:137-150 | From any state, two actions that both pass the check before either finishes are both sent |
| ControlHistories.OverlapHappens | agent/internal/monitor/control.go:137-150 | A new agent that receives any answerable request has a history, with honest errors, in which an approval and a rejection of it are both sent |
| ControlHistories.DishonestErrorHappens | agent/internal/monitor/control.go:144-146 | It also has one with strictly serialised actions, in which a Respond fails after its response left and the next action answers again; so neither hypothesis of at-most-once can be dropped |
| Control.CheckExactly | agent/internal/monitor/control.go:137-172 | An action passes all checks exactly when some reply to it would be an exact response: accept or, for a session, acceptForSession exactly for an approval, decline or, to cancel the turn, cancel exactly for a rejection, among the decisions offered, or complete answers |
| Control.RefusalInWords | agent/internal/monitor/control.go:211-225 | A refused action is told, in this order, that there is no such request, that it is another than meant, that it cannot be controlled, or that this is no answer to it |
| Control.ControlAlways | agent/internal/monitor/control.go:211-235 | All of this, and the agreement of table and snapshot, holds in every state of every history with actions in flight |
| Decorate.RequestIdsAreUnique | agent/internal/monitor/events.go:239-241 | Different sequence numbers never give one id, whatever the clock says |
| Decorate.RequestIdReads | agent/internal/monitor/events.go:239-241 | A request id reads as the millisecond it was given out in, rounded down, and its number |
| Monitor.DescribeRequest | agent/internal/monitor/control.go:47-101 | What is recorded keeps thread, turn, item, directory and method; it is controllable for exactly three methods and of kind input for exactly two; it offers the decisions sent, the four fixed ones or none, and carries questions for tool input only; its summary is the command if there is one, the first question if there is one, and else the reason; it is ignored exactly without a thread or of another method |
| Monitor.Monitor.ResolveApproval | agent/internal/monitor/control.go:137-150 | An undisturbed approval or rejection fails and changes nothing, or sends one exact response and takes the request off the table |
| Monitor.Monitor.SubmitInput | agent/internal/monitor/control.go:152-172 | The same for answers |
| Monitor.Monitor.Interrupt | agent/internal/monitor/control.go:174-209 | Errors in order and without effect; an accepted interrupt idles the thread's entries and removes the turn's requests |
| Monitor.ReadAnswers | agent/internal/monitor/control.go:157-166 | Answers are taken exactly when there are some and each has a name and a value |
| Rpc.RepliesGoToTheirCall | agent/internal/appserver/client.go:97-124 | In every interleaving, a call is completed only by a reply read under its own id, or by the end of input if it was in the table then |
| Rpc.NoEntryAfterReturn | agent/internal/appserver/client.go:101-109 | The table holds an entry exactly for the calls between registration and return |
| Rpc.LateRepliesAreDiscarded | agent/internal/appserver/client.go:161-174 | A reply to a returned or unknown call changes nothing |
| Rpc.ReaderNeverBlocks | agent/internal/appserver/client.go:161-174 | A blocked reader means some id was answered twice |
| Rpc.ReplyCanStickExactly | agent/internal/appserver/client.go:161-174 | A reply just read can stop the reader for good exactly when its id is in the table and its caller's channel still holds an unread delivery |
| Rpc.SecondReplyCanBlock | agent/internal/appserver/client.go:167-172 | A run that gets there: one call, answered twice, whose context ends in between |
| Rpc.StuckStays | agent/internal/appserver/client.go:167-172 | Once stuck, the reader holds that reply in every later state of every run |
| Rpc.EndOfInputFreesEveryCall | agent/internal/appserver/client.go:179-199 | Every call in the table at the end of input has its outcome or finds one in its channel, ever after |
| Rpc.FailPending | agent/internal/appserver/client.go:190-199 | The sweep puts the error into exactly the empty registered channels |
| Sse.SseRoundTrip | agent/internal/httpapi/server.go:170-194 | Parsing what was written returns exactly the messages, with ids on task events only, keep-alives anywhere between frames |
| Sse.FrameSurvivesExactly | custom_components/codex_monitor/api.py:177-201 | A frame reads back as what it says if and only if its payload is one line that does not end in a carriage return |
| Sse.DataLinesJoin | custom_components/codex_monitor/api.py:180-201 | Several data lines in a frame are one message, whose text has just these lines |
| Sse.BrokenStream | custom_components/codex_monitor/api.py:177-201 | A stream that breaks inside a frame has said exactly the frames before it |
| Sse.CutSaysLess | custom_components/codex_monitor/api.py:180-201 | Any cut of a stream without carriage returns says a prefix of what the whole says |
| Sse.Listen | custom_components/codex_monitor/api.py:176-201 | The loop over its three variables computes the line-by-line parse |
| Sse.WriteFrames | agent/internal/httpapi/server.go:170-194 | The loop writes the rendered frames |
| Shell.CommandSplitsExactly | agent/internal/hookrelay/relay.go:41-42 | The POSIX word rules split the generated command into exactly five words, its values verbatim, if and only if none of them holds a NUL |
| Shell.CommandRoundTrip | agent/cmd/cma/main.go:104-147 | The agent started by that command forwards with exactly the original token and endpoint, if and only if the token is not empty |
| Shell.PrintedCommandForwards | agent/cmd/cma/main.go:121-133 | Whatever print-hook-config accepts, it prints a command that forwards just that |
| Shell.QuotedRead | agent/internal/hookrelay/relay.go:70-72 | A quoted value reads as that value within any word |
| CurrentThread.Current | custom_components/codex_monitor/models.py:137-155 | The client's pick has the greatest (priority, updated_at) key and comes first among equals; none means no candidate |
| CurrentThread.CurrentFollowsWorkload | custom_components/codex_monitor/models.py:137-155 | Over one list, the pick is in the agent's workload state, except that a running thread hides an error; there is no candidate exactly when the workload is unknown |
| CurrentThread.ClientFollowsAgent | agent/internal/model/model.go:174-232 | So it is at every lock release of every run, for the list the agent shows and the summary beside it |
| CurrentThread.NewerIsPreferredExactly | custom_components/codex_monitor/models.py:146-155 | Of two candidates of one priority the client ranks the newer higher, whichever it is, exactly when their seconds differ, their times are the same, or neither fraction of the second continues the other |
| CurrentThread.StampOrderExactly | custom_components/codex_monitor/models.py:150-154 | For timestamp texts of one width, text order and time order agree exactly under that condition |
| CurrentThread.FractionOrder | custom_components/codex_monitor/models.py:150-154 | Fractions with trailing zeros trimmed compare as text as they do as numbers, so the closing letter alone turns the order round |
| CurrentThread.WholeSecondSortsLast | custom_components/codex_monitor/models.py:150-154 | The extreme case: as text, a whole second sorts after every fraction of it |

## Left out

- Protocol.InvAlways: sequence numbers are unbounded; wrap-around after 2^64 events is not modelled, and neither is an agent restart, which resets the sequence.
- Monitor.Monitor.Subscribe: is one atomic call here; what can happen between its unlock and its last send is the subject of `SubscriberIsFreshExactly` and of `Protocol`.
- Monitor.Monitor.BroadcastSnapshot: keeps the normalized snapshot itself as its signature, that is, JSON encoding with SHA-256 is taken to be collision-free.
- Monitor.Monitor.ThreadStatusChanged: stamps all entries of the thread with one clock reading where the source reads the clock for each, and gets the status already mapped to a state.
- Monitor.Monitor.ApplyRefresh: gets the app-server's responses decoded and the usage history trimmed.
- Monitor.Monitor.RecordHook: gets its fields trimmed and its event already mapped to a state; `mapHookEvent` is a table, and trimming and the legacy field are string handling.
- Monitor.Monitor.Interrupt: the app-server's answer is a parameter, and the lock released while waiting for it is not; the section after it may run at any time in `MonitorState`.
- Monitor.DescribeRequest: takes decoded parameters; blanks around a reason are not trimmed.
- Merge.MergeThreads: list order among equal timestamps, which the source leaves to map iteration; the order after decoration is left open too, as nothing sorts it.
- Cursor.TwoStrikes: `int` is modelled on ASCII text; other decimal digits, other white space and very long literals are not.
- Sse.Listen: characters stand for decoded bytes, and JSON decoding of the payload, with its errors, is not modelled.
- Shell.CommandSplitsExactly: aliases and reserved words are not modelled (the first word is quoted, so neither applies), nor is the Windows command, whose quoting does not escape backslashes.
- CurrentThread.Current: takes thread states already normalised to the known ones.
- Rpc.RepliesGoToTheirCall: decoding a result into the caller's target, and an error code's rendering, are not modelled; the reply is kept verbatim.
- Control.AtMostOneResponse: needs both hypotheses it names; `OverlapHappens` and `DishonestErrorHappens` show what happens without either.
- Constant snapshot fields (schema version, installation id, host, versions) and an event's copy of the installation id, which never change.
- The filesystem collector, app-server response decoding and usage trimming: their results are arbitrary inputs. None of them sets a request id, which is all that is assumed of them (`IsSourceThread`).
- Timers, backoff, processes, HTTP serving, authentication, mDNS, and the Home Assistant entities and services: input and output without further logic.
