# Termhalla: verified models

Termhalla is a terminal workspace: panes live in windows and workspaces, and an agent on a local or
remote machine keeps the panes' processes alive while clients come and go. This project models the
parts where the order of events decides correctness, and proves what they promise.

* **The session-survival agent** (`AgentWorld.dfy`, the other `Agent*.dfy`, `SessionStore.dfy`, `Agent.dfy`,
  `Replay.dfy`). `AgentWorld` is a state machine whose events are the atomic steps of the store: an
  accepted connection, one decoded inbound item, a backend callback, one parsed replay chunk, the
  continuation of an attach, the end of input. Connections carry the complete trace of frames they
  were sent and a script of which sends fail; handles carry everything they emitted. `AgentInvariant`
  states the invariant, the files from `AgentSends` to `AgentRuns` prove that every event keeps it,
  `AgentHistory` that nothing is ever rewritten, `AgentTheorems` draws the promises from both.
  `AgentSubscriptions` shows that pushes follow requests, `AgentAnswers` and `AgentPromises` that every
  request gets the answer that fits it, `AgentAccounts` that the flow gate agrees with the wire, and
  `AgentFrames` which frames an event makes a client receive. `SessionStore` is the store and its sessions
  as mutable objects, every method proved to perform exactly the abstract step; `Agent` states the
  promises on those objects; `Replay` does the same for the replay terminal's write barrier.
* **Flow control** (`FlowControl.dfy`, `AckLoop.dfy`): the gate that pauses panes, and the loop it
  forms with the client's ack policy.
* **The deterministic backend** (`FakeBackend.dfy`): line splitting, the pause queue, deferred exits.
* **The daemon** (`DaemonCore.dfy`, `DaemonLifecycle.dfy`, `LogSink.dfy`): connection and pane counts,
  the idle timer, the byte-bounded log.
* **The window handoff buffer** (`Transit.dfy`, `TransitRoutes.dfy`): events of a pane that moves between windows,
  and which window receives them.
* **The mosaic layout and workspace documents** (`Layout.dfy`, `WorkspaceDoc.dfy`).
* **Two codecs** (`Payload.dfy`, `BridgeStatus.dfy`): the upload payload and its unpacker, the status
  line in batch and incremental form.
* **Two image searches** (`Reachability.dfy`, `RegionGrowing.dfy`, `LargestComponent.dfy`).

Code that works by changing things step by step is modelled by classes, arrays and loops, proved
against functions; pure code is modelled by functions. `Chunks.dfy` holds the shared vocabulary.

## Where the code does not keep the promise

In each case the model follows the code, and a lemma states exactly when the promise holds.

* A push in which a good hello follows an item that already ended the session is counted as an
  established connection that never ends, and the daemon never idles out again
  (`DaemonCore.CountStaysExactIff`, `DaemonCore.LeakyPushLeaks`, `DaemonCore.LeakedDaemonNeverIdles`).
* Output of the deterministic backend that was queued for a late reader is dropped when the shell
  exits before the reader is attached (`FakeBackend.OutputSurvivesExitIffReadInTime`), and a CR LF cut
  by two writes counts as two line ends (`FakeBackend.ChunkingIsInvisibleIff`, `FakeBackend.TypingInPieces`).
* A burst that overflows the handoff buffer before a torn-off window exists is flushed to a window that
  is not there (`Transit.NothingLostIffSafe`, `Transit.BurstDuringTearOffIsLost`).
* Splitting a pane that has no tile creates a pane that nothing shows (`Layout.SplitKeepsIff`,
  `Layout.SplitWithoutTileOrphans`).
* A maximized pane is forgotten on import when its id is the empty text (`WorkspaceDoc.ImportIsRenamingIff`,
  `WorkspaceDoc.EmptyIdLosesMaximized`).
* The unpacker accepts fractional sizes, so an accepted piece need not have the declared length
  (`Payload.SizesAreByteCountsIff`).
* The incremental status scanner, described as equivalent to the batch parse, can differ from it once an
  unfinished line outgrows the window (`BridgeStatus.ScannerMatchesBatchIff`,
  `BridgeStatus.OverlongStatusIsMissed`, `BridgeStatus.MidLineTextIsTaken`).

## Model

| member | source | states |
|---|---|---|
| AgentTheorems.ExactlyOnce | src/agent/session-store.ts:408-511 | for every interleaving before and after an attach request: if the attach was answered, the snapshot serializes exactly what the pane had emitted at the request, no data of the pane was sent between request and response, what was sent since is an initial part of what was emitted since, in order and never twice, and while the connection holds the store snapshot, data sent and data held make up the whole stream |
| AgentPromises.HealthyAttachIsAnswered | src/agent/session-store.ts:473-511 | whatever happened since: once the terminals have caught up, an attach that was not refused, on a live connection that lost no frame, to a pane that is still the same live pane, has exactly one response in the trace, and that is the snapshot of exactly what the pane had emitted at the request |
| AgentPromises.EveryAnswerFits | src/agent/session.ts:112-200 | over every run, every response in a trace answers a request of its own connection and is the answer that fits it: the right result or error for every verb, the session list with the live panes and their subscriptions, for an attach the serialization of exactly what was emitted at the request, and an error only for the reasons there are |
| AgentPromises.EveryRunCanCatchUp | src/agent/replay.ts:91-112 | from every reachable state, parsing and continuations alone, with nothing from outside, lead to a state in which nothing is left to parse or to continue |
| AgentTheorems.HoldWindows | src/agent/session-store.ts:422-472 | in every reachable state a pane has at most one open hold window, holds bytes only while it is open, and an open window means a bound and subscribed client that is the one that attached |
| AgentTheorems.StaleSettleIsInert | src/agent/session-store.ts:456-472 | one step: an attach that settles after its connection ended changes nothing but its own record: no hold, no held byte, no frame of any other connection |
| AgentTheorems.BoundIsTheHolder | src/agent/session.ts:89-110 | on a living store a connection is bound if and only if it is established, holds the lease and has not ended |
| AgentTheorems.HolderIsLatestBinder | src/agent/session-store.ts:271-303 | after any run, nested binds included, the bound client is the one that called bind last |
| AgentTheorems.NewestBinderWins | src/agent/session-store.ts:271-303 | after any hello that is taken, with any tree of hellos inside the shutdowns it causes, those of displaced holders and its own alike, somebody is bound and it is the latest binder |
| AgentTheorems.LateEndIsHarmless | src/agent/session.ts:100-110 | a connection that is not bound can end without touching panes, gate, holder or any other connection |
| AgentTheorems.FrameTrace | src/agent/session.ts:203-283 | on every connection hello is first and unique, nothing follows the revocation, nothing about a pane follows its exit frame, and every frame about a pane carries the id of that pane |
| AgentTheorems.NothingFollowsTheEnd | src/agent/session.ts:112-118 | once a connection has ended no later event adds a frame to it |
| AgentTheorems.OneAnswerPerRequest | src/agent/session.ts:112-200 | each request has at most one response, and exactly one on a live connection that lost no frame, unless it is an attach that is still pending |
| AgentTheorems.CaughtUpMeansAnswered | src/agent/replay.ts:91-126 | once the terminals have parsed what they were fed and every continuation ran, no request is left unanswered |
| AgentTheorems.WaitingCanGoOn | src/agent/replay.ts:119-126 | a waiting attach belongs to a live pane whose terminal still has something to parse, so it is never stranded |
| AgentTheorems.PaneLife | src/agent/session-store.ts:214-238 | for every subscription, which by the next two rows every frame about a pane has: the data sent is an initial part of the data emitted since, nothing is missing but what a window holds while the client is bound, an exited pane was reported, and the exit is the last frame about it |
| AgentSubscriptions.PushesFollowARequest | src/agent/session-store.ts:10-11 | over every run, a frame about a pane is sent to a connection only after that connection itself asked for that very pane, by a spawn, an adoption or an attach |
| AgentSubscriptions.SubscribedMeansAsked | src/agent/session-store.ts:10-11 | in every reachable state a pane that would be pushed has a bound client, and that client asked for it earlier |
| AgentSubscriptions.EverySubWasAsked | src/agent/session-store.ts:309-375 | every subscription of a run was entered by a spawn or attach request of its own connection, at the length its trace then had, for the pane the id then named |
| AgentTheorems.SpawnHearsEverything | src/agent/session-store.ts:309-375 | over every run after a spawn that succeeds: all the data its connection was ever sent about the new pane is an initial part of everything the pane emitted, and while the connection holds the store nothing is missing but what a window holds |
| AgentAttaches.StartAttachKeeps | src/agent/session-store.ts:408-454 | starting an attach keeps the invariant on all its paths: refused, waiting, answered at once, and a snapshot that fails at once, which closes the window and leaves the subscription |
| AgentTheorems.NothingStaysPausedWhileDetached | src/agent/session-store.ts:240-260 | a handle is paused exactly when the flow gate says so, and with no client bound none is |
| AgentAccounts.GateKeepsTheBooks | src/agent/session-store.ts:165-183 | over every run, what the gate holds outstanding for a live pane of the holder is exactly the data in the holder's own trace about it, less what it acknowledged, never below zero |
| AgentFrames.StatusIsTold | src/agent/session-store.ts:185-191 | a status change of a pane that pushes is one status frame to a healthy holder, and nothing to anybody otherwise |
| AgentFrames.OutputIsTold | src/agent/session-store.ts:176-183 | output is one data frame to a healthy holder, or joins what an open window holds, or is told to nobody |
| AgentFrames.ExitIsTold | src/agent/session-store.ts:214-238 | an exit is told to a healthy holder as the held data, the status if it changed, and the exit with its code, in this order, and the pane is gone |
| AgentFrames.SpawnIsTold | src/agent/session-store.ts:309-375 | a spawn is told as a status and its answer; one that fails leaves the panes as they were |
| AgentFrames.ItemsAreGated | src/agent/session.ts:207-233 | items on an ended connection are ignored, before the handshake anything but a good hello only ends the connection, after it only a fatal item does, and other stray items do nothing |
| AgentFrames.EndOfInputEnds | src/agent/session.ts:285-287 | the end of its input ends a connection and nothing else; a living store is free again if that connection held it |
| AgentFrames.AttachSubscribes | src/agent/session-store.ts:432-456 | an attach to a pane that works leaves it pushing even when the serializer throws, and its hold window is open exactly if the attach is under way |
| AgentFrames.ShutdownEmptiesTheStore | src/agent/session-store.ts:540-557 | a shutdown leaves no pane and no holder and sends nothing |
| AgentFrames.NothingIsPushedAfterShutdown | src/agent/session-store.ts:540-557 | after a shutdown no run adds a frame about a pane to any trace |
| AgentRuns.StepKeeps | src/agent/session-store.ts:121-303 | every event keeps the whole store invariant |
| AgentRuns.EveryRun | src/agent/session-store.ts:121-303 | the invariant holds after every run from the initial state |
| AgentLease.EstablishKeeps | src/agent/session-store.ts:271-303 | a hello with any nesting of hellos inside the shutdown of the holder it displaces and inside its own, when it was outrun, keeps the invariant and leaves alone every connection that is in the middle of its own bind or over |
| AgentLease.DisplacedHolderIsTold | src/agent/session.ts:235-248 | the holder that a hello displaces ends, and unless that send fails its trace goes on with the revocation and with nothing else, whatever is nested in the shutdowns |
| AgentLease.BinderHoldsOrIsTold | src/agent/session-store.ts:281-303 | a binder ends its hello holding the store with nothing sent, or outrun: over, and told unless that send fails |
| AgentTheorems.DisplacedWereTold | src/agent/session.ts:235-248 | over every run, an established connection that holds the lease no more has ended and, unless it lost a frame, its trace ends in the revocation; nobody else was ever sent one |
| AgentDelivery.DeliverKeeps | src/agent/session-store.ts:152-163 | delivering a frame keeps the invariant, also when the send fails and detaches the client in the middle |
| AgentDelivery.EndKeeps | src/agent/session.ts:100-110 | ending a connection keeps the invariant whether or not it holds the lease |
| AgentSettles.SettleKeeps | src/agent/session-store.ts:477-511 | settling an attach keeps the invariant on all of its paths: failed barrier, pane gone, connection ended, success with drain |
| AgentExits.CallbackKeeps | src/agent/session-store.ts:365-373 | backend output, status changes and exits, stragglers included, keep the invariant |
| AgentHistory.RunLater | src/agent/session-store.ts:121-303 | no run rewrites history: traces, emitted data, recorded attaches and subscriptions only grow, and an ended connection never gains a frame |
| Agent.AgentProcess.Handle | src/agent/session-store.ts:5-18 | one event on the objects: a session is bound exactly while it is established, holds the lease and has not ended, the newest binder is, and who lost the lease was told; hold windows, held bytes, subscriptions and paused handles agree; every trace is ordered and answers each request at most once; what was sent stays sent and an ended session is silent for good |
| Agent.AgentProcess.HandleAll | src/agent/session-store.ts:5-18 | any list of events leaves the objects where the run of the state machine ends, with the same promises |
| Agent.AgentProcess.ReattachReconstructs | src/agent/session-store.ts:15-18 | exactly-once reconstruction between two states of the objects: answer with all that was emitted before, silence until then, and what was emitted since in order |
| Agent.AgentProcess.HealthyReattachIsAnswered | src/agent/session-store.ts:473-511 | on the objects: once the agent has caught up, a client that is still there and lost nothing has exactly one response to its healthy attach, and that is the snapshot of what the pane had emitted |
| SessionStore.AgentSessionStore.OnEvent | src/agent/session-store.ts:121-303 | every event handled by the mutable store and its sessions, the steal with its two re-entrant shutdowns and the failing attach included, is one step of the state machine |
| Replay.FeedKeeps | src/agent/replay.ts:103-112 | feeding keeps the barrier invariant and appends exactly the data |
| Replay.ParseSettlesItsBarrier | src/agent/replay.ts:91-112 | a parse step settles exactly the requests whose barrier it reaches, each with the serialization of what was fed before its request |
| Replay.RequestBarrier | src/agent/replay.ts:119-126 | a request is answered at once with everything fed, or waits for exactly the chunks fed so far |
| Replay.NoRequestIsOrphaned | src/agent/replay.ts:91-100 | parsing everything that was fed leaves no waiter and shows all the text |
| Replay.PaneReplay.Write | src/agent/replay.ts:103-112 | counters and queue after a write |
| Replay.PaneReplay.OnParsed | src/agent/replay.ts:107-111 | counters, waiters and settled promises after one parsed chunk |
| Replay.PaneReplay.TakeSnapshot | src/agent/replay.ts:119-126 | immediate answer or a waiter with the current barrier |
| Replay.PaneReplay.Close | src/agent/replay.ts:128-142 | closing settles every waiter with the current screen, once |
| FlowControl.ApplyKeeps | src/shared/remote/flow-control.ts:98-158 | the decisions of any operation are exactly the changes of the paused flags, and afterwards no pane is on the wrong side of its marks |
| FlowControl.GateIsItsHistory | src/shared/remote/flow-control.ts:98-163 | for every run of emissions, acknowledgements, window frames and exits: outstanding count, window and paused flag of a pane are those its own history tells, the count being what was emitted less what was acknowledged, and the pause lasting from above the window down to half of it |
| FlowControl.AckingAllResumes | src/shared/remote/flow-control.ts:126-137 | acknowledging all that is outstanding resumes a paused pane, leaves nothing outstanding and decides nothing else |
| FlowControl.DecisionsAlternate | src/shared/remote/flow-control.ts:100-113 | the actions for one pane alternate between pause and resume over any run without its exit |
| FlowControl.DirectionOfDecisions | src/shared/remote/flow-control.ts:116-137 | emitting never resumes, acknowledging never pauses |
| AckLoop.RunConserves | src/shared/remote/flow-control.ts:175-201 | everything the gate has outstanding is on the wires or accumulated at the client, over any run of emissions, deliveries, acks and firings of the client's quiet timer |
| AckLoop.NeverOverAcks | src/shared/remote/flow-control.ts:126-137 | an ack, by cadence or by flush, never exceeds what the gate has outstanding |
| AckLoop.NeverStuck | src/main/remote/remote-workspace-manager.ts:576-584 | for every window and cadence: with both wires empty and no timer armed nothing is unacknowledged and the pane is not paused |
| AckLoop.DrainResumes | src/main/remote/remote-workspace-manager.ts:576-584 | for every window and cadence and from every reachable state: delivering the data, letting the quiet timer fire and delivering the acks leaves the pane flowing |
| AckLoop.TimerIsNeededIffCadenceIsCoarse | src/shared/remote/flow-control.ts:175-192 | what the quiet timer is for: without it firing, a run can end paused with both wires empty if and only if the ack cadence minus one exceeds half the window |
| FakeBackend.ConservationAndExitLast | src/agent/fake-backend.ts:68-96 | under any schedule of writes, pauses and resumes with callbacks that pause mid-flush: delivered data followed by the queue is what was emitted, at most one exit is reported, and unless the owner killed it not before all data |
| FakeBackend.PausesAreInvisible | src/agent/fake-backend.ts:187-199 | pausing decides when and never what: the same data and exit as the unpaused run whenever the handle is left flowing |
| FakeBackend.KillIsImmediate | src/agent/fake-backend.ts:200-206 | kill reports exit 0 at once, paused or not |
| FakeBackend.PausedDeliversNothing | src/agent/fake-backend.ts:68-96 | from a pause to the next resume or kill nothing is delivered and no exit is reported, whatever is typed meanwhile |
| FakeBackend.ExitIsToldOnce | src/agent/fake-backend.ts:84-96 | whenever the callbacks are attached: with an exit callback there, exactly one exit has been reported if the shell is dead and none if it lives |
| FakeBackend.LateListenerHearsTheCode | src/agent/fake-backend.ts:84-96 | a shell that exited before anybody listened tells the same code to the callback that comes later |
| FakeBackend.ExitReportsItsCode | src/agent/fake-backend.ts:131-136 | a typed exit with a number that is not negative is reported as that number, any other as 1 |
| FakeBackend.FloodIsExact | src/agent/fake-backend.ts:98-121 | a flood emits exactly the chunks asked for, each of the size asked for, between the command marker and the prompt |
| FakeBackend.FloodArgsIff | src/agent/fake-backend.ts:98-106 | the arguments of a flood count exactly when both are positive integers whose product is within the bound |
| FakeBackend.MisfitFloodIsRefused | src/agent/fake-backend.ts:98-114 | a flood with any other arguments is refused with one line and status 1, and the shell lives on |
| FakeBackend.SizeTellsTheLastResize | src/agent/fake-backend.ts:129-130 | the size command reports the last resize |
| FakeBackend.DeadIsSilent | src/agent/fake-backend.ts:68-94 | after death nothing is emitted or delivered any more |
| FakeBackend.OutputSurvivesExitIffReadInTime | src/agent/fake-backend.ts:74-96 | output emitted before the data callback is attached reaches a shell-ending write's reader if and only if the callback was attached before that write: the flush loop drops the queue of a dead handle |
| FakeBackend.UnreadExitLosesOutput | src/agent/fake-backend.ts:74-96 | the shortest script on which it fails: an exit typed before anybody reads |
| FakeBackend.ChunkingIsInvisibleIff | src/agent/fake-backend.ts:168-181 | cutting the input into two writes gives the same lines if and only if the cut does not split a CR LF |
| FakeBackend.TypingInPieces | src/agent/fake-backend.ts:168-181 | one write and two leave the same shell, line buffer included while it lives, if and only if the cut splits no CR LF or the first part already ended the shell |
| FakeBackend.SplitCrLfAddsALine | src/agent/fake-backend.ts:171-180 | a split CR LF ends one line more |
| FakeBackend.FakeHandle.WriteInput | src/agent/fake-backend.ts:168-181 | the buffer loop runs exactly the complete lines, in order, until the shell is gone |
| FakeBackend.FakeHandle.Flush | src/agent/fake-backend.ts:77-82 | the flush loop with its three guards |
| FakeBackend.FakeHandle.ResumeIt | src/agent/fake-backend.ts:190-199 | flush, then fire a deferred exit once nothing is queued |
| FakeBackend.FakeHandle.KillIt | src/agent/fake-backend.ts:200-206 | release the pause, drop a deferred exit, exit |
| LogSink.DaemonLog.Append | src/agent/daemon-server.ts:120-154 | one append: the line is fitted and joins the history, the ring makes room, the file stays in step when the write succeeds, and a compaction brings a file that had fallen out of step back |
| LogSink.FileIsLongestSuffix | src/agent/daemon-server.ts:120-154 | while writes succeed the file is, after any appends, the longest whole-line suffix of the fitted history within the byte cap |
| LogSink.TrimIsLongestSuffix | src/agent/daemon-server.ts:133-138 | dropping oldest lines until the rest fits keeps the longest suffix that fits |
| LogSink.OverlongKeepsItsTail | src/agent/daemon-server.ts:122-132 | a line longer than the cap keeps the longest suffix that fits of its last bytes |
| LogSink.TrimAsYouGo | src/agent/daemon-server.ts:133-138 | trimming at every append loses nothing that trimming the whole history would keep |
| DaemonLifecycle.ArmedExactlyWhenEmpty | src/agent/daemon-lifecycle.ts:83-115 | from start to shutdown the timer is armed if and only if both counts are zero |
| DaemonLifecycle.IdleMeansIdle | src/agent/daemon-lifecycle.ts:74-86 | an idle shutdown at T means that nothing was served during the whole timeout before T |
| DaemonLifecycle.DueShutsDownIff | src/agent/daemon-lifecycle.ts:74-81 | after any run the timer callback shuts down, once and as idle, if and only if the armed deadline has been reached; otherwise it changes nothing |
| DaemonLifecycle.DeadlineMoves | src/agent/daemon-lifecycle.ts:74-115 | the armed deadline is a timeout after the last start, disconnect or pane exit that left nothing to serve; nothing else moves it |
| DaemonLifecycle.EmptyDaemonIdlesOut | src/agent/daemon-lifecycle.ts:74-86 | started, empty and left alone for its timeout, the daemon shuts down with exactly one idle shutdown |
| DaemonLifecycle.IdlesAfterExactlyTheTimeout | src/agent/daemon-lifecycle.ts:74-86 | left alone after the event that emptied it, the daemon shuts down if and only if at least the timeout has passed |
| DaemonLifecycle.SignalShutsDown | src/agent/daemon-lifecycle.ts:87-90 | the signal shuts a running daemon down at once, whatever it serves, and does nothing to one that is down |
| DaemonLifecycle.ShutdownAtMostOnce | src/agent/daemon-lifecycle.ts:67-72 | shutdown fires at most once |
| DaemonLifecycle.Lifecycle.OnTimer | src/agent/daemon-lifecycle.ts:74-81 | a due timer clears itself and shuts down |
| DaemonCore.CountStaysExactIff | src/agent/daemon-server.ts:258-302 | an event keeps the established count equal to the live connections if and only if it is not a push in which a good hello follows an item that ended the session; pane counts are always exact |
| DaemonCore.FirstPushOutcome | src/agent/daemon-server.ts:258-302 | a good hello as first item connects, displaces the holder and touches nobody else; anything else as first item ends the connection unconnected; unless the push is one of those above |
| DaemonCore.LeakyPushLeaks | src/agent/daemon-server.ts:281-301 | the smallest such push leaves a count of one with nobody connected |
| DaemonCore.CleanDaemonIdlesRight | src/agent/daemon-server.ts:224-316 | without such pushes the idle timer is armed if and only if no connection and no pane lives |
| DaemonCore.LeakedDaemonNeverIdles | src/agent/daemon-server.ts:258-302 | after one such push the idle timer is never armed again, whoever comes and goes |
| DaemonCore.Daemon.OnPush | src/agent/daemon-server.ts:273-302 | the item loop with its handshake flag |
| DaemonCore.Daemon.OnExitReport | src/agent/daemon-server.ts:207-218 | a wrapped handle counts its exit once |
| Transit.NothingLostIffSafe | src/main/window-manager.ts:202-321 | after any run, what the windows received for a pane followed by what still waits is what came in for it, events and snapshots, once each and in order, if and only if every step was safe in the state it started from: the target window open at every send and flush, nothing waiting at every close, no snapshot replaced |
| Transit.StepMissesIff | src/main/window-manager.ts:202-321 | for every kind of event: whether the step loses something of a pane is decided by a guard on the state before it |
| TransitRoutes.ReceivedByTheOwner | src/main/window-manager.ts:243-259 | over every run, whatever a window received of a pane it received while it was open and owned the pane, or was the main window and the pane had no owner |
| TransitRoutes.OwnerReceivesAllOfItsSpan | src/main/window-manager.ts:243-321 | as long as a window owns a pane and every step is safe, it receives all that waited and all that came in, in order, but for what waits at the end, and no other window receives anything of the pane |
| TransitRoutes.OwnerIsLatest | src/main/window-manager.ts:202-215 | the owner of a pane, the open windows, the main window and the move that is on are those the events tell: the last claim or move, unless its window closed since |
| TransitRoutes.BufferedIff | src/main/window-manager.ts:294-321 | a pane is buffered after a step exactly when the step starts it, or it was and the step does not stop it |
| Transit.BuffersAreBoundedAndTimed | src/main/window-manager.ts:294-321 | after any run: no buffer exceeds the cap, every buffered pane has one timer that will fire and no other pane has one, and snapshots wait for buffered panes only |
| Transit.SnapshotLeadsItsBuffer | src/main/window-manager.ts:306-316 | in the log of any run, a snapshot that was sent or lost comes when everything routed before its pane's buffering began was settled, and is followed at once by exactly what was routed since, with the same fate |
| Transit.RunSettlesSnapshots | src/main/window-manager.ts:463-475 | every snapshot that a run takes is settled once, in order, or still waits |
| Transit.BurstDuringTearOffIsLost | src/main/window-manager.ts:463-475 | a burst of one event more than the cap, before a torn-off window exists, flushes into nothing |
| Transit.ClosedWindowOwnsNothing | src/main/window-manager.ts:202-215 | closing a window takes its panes' ownership and buffers and leaves every other pane alone |
| Transit.WindowManager.OnRoute | src/main/window-manager.ts:243-259 | buffer, flush over the cap, or send to the owner or the main window |
| Transit.WindowManager.Replay | src/main/window-manager.ts:306-321 | the flush loop, after which nothing is buffered |
| Transit.WindowManager.OnBeginSameWindow | src/main/window-manager.ts:294-301 | only the owning window may arm; a pending buffer is flushed first |
| Transit.WindowManager.OnCaptured | src/main/window-manager.ts:463-475 | keep the snapshot, re-own the pane, start buffering unless it already does |
| Transit.WindowManager.OnClosed | src/main/window-manager.ts:202-215 | every pane of the closed window is dropped with its timer, buffer and snapshot |
| Layout.RunsKeepLayouts | src/shared/workspace-model.ts:13-158 | over any run of create, split, close, minimize, restore and move on any set of workspaces: distinct leaves that are all panes, a tile for every pane that is not minimized, no dangling or contradictory view state, no pane in two workspaces |
| Layout.PerformConserves | src/shared/workspace-model.ts:149-158 | panes appear only by splitting and vanish only by closing; a move keeps the panes of all workspaces together |
| Layout.PanesKeepTheirConfig | src/shared/workspace-model.ts:30-48 | over any run, wherever it travelled, a pane carries the configuration it was created with |
| Layout.SplitKeepsIff | src/shared/workspace-model.ts:30-48 | a split keeps the layout sound if and only if the tree is empty or the target has a tile |
| Layout.SplitWithoutTileOrphans | src/shared/workspace-model.ts:30-48 | reached by two minimizes and a restore: splitting a pane in the tray whose leaf the restore dropped creates a pane that no tile and no tray entry shows |
| Layout.AddFirstKeepsIff | src/shared/workspace-model.ts:13-21 | replacing the tree by a first pane is sound if and only if every other pane is minimized |
| Layout.MoveKeepsIff | src/shared/workspace-model.ts:149-158 | a move keeps the source sound always and the destination if and only if it has no tile for the pane |
| Layout.MoveConserves | src/shared/workspace-model.ts:149-158 | one move: the pane arrives unchanged, leaves the source, and no other pane is touched |
| Layout.MoveKeepsCountIff | src/shared/workspace-model.ts:149-158 | the number of panes of both workspaces is kept if and only if the destination did not know the pane |
| Layout.RemoveKeeps | src/shared/workspace-model.ts:72-88 | closing keeps the layout sound and removes exactly that leaf |
| Layout.MinimizeKeeps | src/shared/workspace-model.ts:115-122 | minimizing keeps the layout sound and takes the tile away |
| Layout.RestoreKeeps | src/shared/workspace-model.ts:129-142 | restoring keeps the layout sound |
| Layout.CloseUndoesSplit | src/shared/workspace-model.ts:30-78 | closing the pane a split opened gives back the whole workspace |
| Layout.PassingThroughLeavesNoTrace | src/shared/workspace-model.ts:149-158 | moving a pane on to a third workspace leaves the one it passed through as it was |
| Layout.SplitKeepsDividers | src/shared/workspace-model.ts:23-48 | a split changes the relative placement of no two panes; the new pane shares the target's place towards all others and lies on the chosen side of it |
| Layout.VisibleIsRestriction | src/shared/workspace-model.ts:93-101 | the visible layout is the tree restricted to what is not minimized: the same panes in the same order, any two divided as before |
| Layout.MinimizeOrderIsIrrelevant | src/shared/workspace-model.ts:93-101 | the order of minimizing does not matter |
| Layout.TilesAreTheRest | src/shared/workspace-model.ts:93-101 | on a sound workspace the visible tiles are exactly the panes that are not minimized, once each |
| Layout.RestoreLandsOnTheRight | src/shared/workspace-model.ts:129-142 | a restored pane lands to the right of the whole old visible layout, or alone |
| Layout.RestoredPaneIsInARow | src/shared/workspace-model.ts:129-142 | the restored pane is in a row with every visible pane, on its right, and the others keep their relative placement |
| Layout.ArrivingPaneIsInARow | src/shared/workspace-model.ts:149-158 | a pane that moves in is in a row with every pane there, on its right, and the others keep their relative placement |
| Layout.MinimizeThenRestore | src/shared/workspace-model.ts:115-142 | to the tray and back leaves tray, maximized pane and pane table as they were |
| Layout.ComputeVisibleLayout | src/shared/workspace-model.ts:93-101 | the loop computes the restriction |
| Layout.ComputeRestore | src/shared/workspace-model.ts:129-142 | the loop computes the restored workspace |
| Layout.ReorderIds | src/shared/workspace-model.ts:276-285 | a permutation in which the moved id takes the target's index, everything else keeps its order, and which can be shifted back |
| WorkspaceDoc.DocumentRoundTrip | src/shared/workspace-doc.ts:34-48 | saving a sound workspace and importing it under fresh non-empty ids gives an isomorphic, sound workspace that owns exactly the fresh ids |
| WorkspaceDoc.ImportIsRenamingIff | src/shared/workspace-doc.ts:34-48 | an import is the source renamed by one bijection over tree, panes, minimized order and maximized, if and only if the maximized pane's old and new ids are non-empty |
| WorkspaceDoc.EmptyIdLosesMaximized | src/shared/workspace-doc.ts:34-48 | a sound workspace whose maximized pane has the empty id comes back unmaximized |
| WorkspaceDoc.ImportIsSoundIff | src/shared/workspace-doc.ts:34-48 | for any loaded file the import is sound if and only if the tree and the tray in the file were |
| WorkspaceDoc.ImportKeepsThePicture | src/shared/workspace-doc.ts:41-46 | the imported visible tree is the renamed visible tree |
| WorkspaceDoc.ImportOwnsItsPanes | src/shared/workspace-doc.ts:20-33 | imports drawing different ids never share a pane |
| WorkspaceDoc.IdMapIsBijection | src/shared/workspace-model.ts:292-309 | the re-keying is a bijection between the pane ids and the fresh ids |
| WorkspaceDoc.SaveThenLoadIff | src/shared/workspace-model.ts:167-185 | loading gives back what was saved if and only if view state and bindings were sound |
| WorkspaceDoc.LoadsIff | src/shared/workspace-model.ts:171-209 | a file loads if and only if it parses, has both parts, is not newer, and has an id and panes |
| WorkspaceDoc.RefusedFor | src/shared/workspace-model.ts:171-209 | a file that does not load is refused for the first of the four faults that applies |
| WorkspaceDoc.OldRecordsLoadPlain | src/shared/workspace-model.ts:188-195 | a record from before version 7 loads with no view state: its whole tree is visible |
| WorkspaceDoc.NewRecordsKeepTheirView | src/shared/workspace-model.ts:196-208 | a record from version 7 on loads with its tray in file order, less what names no pane, and its maximized pane if that exists and is not in the tray |
| WorkspaceDoc.SavedFilesLoad | src/shared/workspace-model.ts:167-185 | saving never produces a refused file; layout, panes, name and home come back, the tray loses only what referred to no pane, and a sound layout stays sound |
| WorkspaceDoc.ResavedFilesAreStable | src/shared/workspace-model.ts:258-272 | whatever file was loaded, saving the result and loading it again changes nothing |
| WorkspaceDoc.NormalizedIsSound | src/shared/workspace-model.ts:240-272 | whatever the file said, loaded view state refers to existing panes and is mutually exclusive, no pane is lost, and a workspace meant for an agent never becomes local |
| WorkspaceDoc.NormalizeIsIdempotent | src/shared/workspace-model.ts:258-272 | normalizing twice is normalizing once |
| WorkspaceDoc.RemapPaneIds | src/shared/workspace-model.ts:292-309 | the loops draw one id per pane and rebuild tree and table under them |
| Payload.RoundTripIff | src/remote-client/prebuilt.ts:579-587 | the unpacker returns exactly the encoded list if and only if every hash is right, the native module is in it and its hash is the announced one; otherwise the exit code says which |
| Payload.TruncatedOrExtendedIsRejected | src/remote-client/prebuilt.ts:297-318 | every proper prefix and every proper extension of an accepted payload is rejected with the byte-count exit |
| Payload.LengthIsDetermined | src/remote-client/prebuilt.ts:297-318 | a header line accepts one body length only |
| Payload.ReceivedIsExact | src/remote-client/prebuilt.ts:297-348 | acceptance means: the declared names in order, pieces that tile the body behind the header line exactly, every hash right, the native module present |
| Payload.UsableFrontIsSafe | src/remote-client/prebuilt.ts:264-295 | what comes before the cut: the header is what the first line says, and every name in it is safe |
| Payload.SizesAreByteCountsIff | src/remote-client/prebuilt.ts:302-313 | every piece has as many bytes as declared if and only if all declared sizes are whole numbers |
| Payload.HalfBytesAreAccepted | src/remote-client/prebuilt.ts:302-313 | two declared halves of a byte are accepted |
| Payload.UnpackedFilesStayInside | src/remote-client/prebuilt.ts:139-152 | a path that passes the check never leads out of the directory it is unpacked in |
| Payload.SafePathIff | src/remote-client/prebuilt.ts:139-152 | the check refuses exactly empty paths, absolute ones, those with a backslash and those with a parent segment |
| Payload.UnsafePathsAreRefused | src/remote-client/prebuilt.ts:278-287 | on both sides: the client sends nothing if and only if a path is unsafe, and the unpacker rejects a header that names one |
| Payload.UnpackDecides | src/remote-client/prebuilt.ts:264-348 | the whole decision: the byte-count exit for whatever does not fit and for a missing native module, the checksum exit for a wrong hash, acceptance of the pieces otherwise |
| Payload.OpenPayload | src/remote-client/prebuilt.ts:264-295 | find and parse the header line and check every path in it |
| Payload.JudgeBody | src/remote-client/prebuilt.ts:297-348 | the cut, the check for left-over bytes and the hash checks, in the order of the script |
| Payload.CutPieces | src/remote-client/prebuilt.ts:297-313 | the loop with its moving offset |
| Payload.CheckPieces | src/remote-client/prebuilt.ts:320-348 | the hash loop and the search for the native module |
| BridgeStatus.ScannerMatchesBatchIff | src/remote-client/bridge-status.ts:74-104 | for every window and chunking: after each chunk the scanner reports, under every parser, the first status that re-running the batch parse over the growing text would have found, if and only if for each chunk the unfinished line fits the window or, for that line and for its kept end alike, what the chunk makes of it is no status line, was tried before, or is what the chunk tries next anyway |
| BridgeStatus.ScannerMatchesBatch | src/remote-client/bridge-status.ts:74-104 | in particular when every unfinished line fits the window, or neither it nor its kept end starts with the prefix |
| BridgeStatus.RepeatedStatusIsFound | src/remote-client/bridge-status.ts:88-101 | an overlong status line that the next chunk ends and repeats is found all the same, so starting with the prefix is not yet harm |
| BridgeStatus.WholeLinesMatchOneParse | src/remote-client/bridge-status.ts:80-104 | for chunks of whole lines it is the batch parse of the whole text, at any window |
| BridgeStatus.RetainedIsBounded | src/remote-client/bridge-status.ts:88-101 | retained text never exceeds the window, on any input |
| BridgeStatus.FirstIsEarliest | src/remote-client/bridge-status.ts:50-58 | the batch parse finds the status of the earliest line that has one, and none only if no line has |
| BridgeStatus.OverlongStatusIsMissed | src/remote-client/bridge-status.ts:88-101 | a status line longer than the window before its last chunk is missed |
| BridgeStatus.MidLineTextIsTaken | src/remote-client/bridge-status.ts:88-101 | a status text in the middle of an overlong line is taken for a line |
| BridgeStatus.Scanner.PushText | src/remote-client/bridge-status.ts:88-101 | the line loop of one push |
| RegionGrowing.GrowBackground | design/extract_helmet.py:11-46 | marks exactly the pixels reachable from the border by neighbour steps within the colour threshold (none below zero), each queued once; the search ends |
| RegionGrowing.GrowthIsComplete | design/extract_helmet.py:34-39 | an empty queue means the marked set is all of the background |
| RegionGrowing.Consider | design/extract_helmet.py:18-26 | one pixel is marked and queued if it is new and close enough |
| LargestComponent.KeepLargest | design/extract_helmet.py:48-78 | the result marks exactly one foreground component of maximal size, the first in scan order on ties, or nothing |
| LargestComponent.Flood | design/extract_helmet.py:60-71 | the inner search returns exactly the component, each pixel once; it ends |
| LargestComponent.FindLargest | design/extract_helmet.py:52-73 | the scan finds the first largest component |
| LargestComponent.SearchIsComplete | design/extract_helmet.py:63-71 | an empty queue means the component is complete |

## Left out

- Backend calls that throw in write, resize or kill, replay factories that throw, and serializers that throw while a waiting snapshot settles, with the empty snapshots they degrade to; a feed that throws and breaks the replay, a spawn that throws, and a serializer that throws at once in an attach are modelled.
- Release: the branch that drains although the barrier was rejected, because the replay settles every waiting snapshot and never rejects one.
- Pane metadata (directory, size, shell, status contents) and what a session list says beyond which panes are attached; resizing the replay terminal; status and directory changes are environment events with no content.
- The composition in which a session owns its store; only the external, surviving store is modelled.
- What a backend handle emits, or reports, synchronously while it is resumed by an unbind is an event after it; no client hears it either way, since every pane has just lost its subscription.
- A handle is assumed to report its exit at most once, and a send that fails on a connection is scripted per connection; a failing send's shutdown does not bind again, while a revocation's shutdown may, to any depth, in the shutdown of the holder and in that of a binder that was outrun.
- Pane records are values in a map, identified by the number of the spawn that made them: aliasing of records is not captured, and inside the store the replay terminal is the value that `Replay.PaneReplay` is proved to implement.
- Error messages and diagnostics; error codes are kept.
- `FakeBackend`: number parsing and decimal text are parameters, and a data callback may pause but not write or resume.
- `LogSink`: UTF-8 length and re-encoding of a cut line are parameters; timestamps are part of the text.
- `DaemonCore`: established, ended and holder are an abstraction of the sessions that `AgentWorld` models in full, kept apart because the daemon counts handshakes that the session does not see.
- `DaemonLifecycle`: signals and the clock are events; timers fire when due and not before.
- Claiming the daemon socket, which is a sequence of separate system calls, and everything else in the daemon's process entry.
- `Transit`: the order of the steps of a whole workspace move, drag and drop, and window bounds; the log of what reached which window is added for the statements.
- Re-docking a workspace into the window it already occupies.
- `Layout`: themes, templates and the store's own copy of the view state; an absent and an empty list of minimized panes are one, as readers treat them, so identity of the saved bytes is not stated.
- `WorkspaceDoc`: JSON text, layouts that are not trees of the right shape, panes without a configuration, and the enumeration order of object keys, which is a parameter.
- `Payload`: JSON text and SHA-256 are parameters; a null header or null file entry, which crashes the script before any write, rounding of sums of sizes, and staging and promotion of the unpacked directory.
- `BridgeStatus`: reading the JSON behind the prefix is a parameter.
- Image decoding, blurring and pasting around the two searches.
- Validators, themes, key bindings, palettes, the command line, sockets, child processes, ssh, Electron windows and the user interface.
