/** Which frames an event makes a healthy holder receive, exactly, and which events say nothing to anybody. */
module AgentFrames {
  import opened Chunks
  import opened FlowControl
  import opened Replay
  import opened AgentWorld
  import opened AgentInvariant
  import opened AgentHistory
  import opened AgentRuns
  import opened AgentTheorems
  import opened AgentAccounts

  /** Connection `c` holds the store, and its sends go out. */
  predicate Healthy(w: World, c: nat) {
    w.bound == Some(c) && c < |w.conns| && !w.conns[c].ended && w.conns[c].sink == [] && !w.destroyed
  }

  /** `c` was sent these frames; nobody was sent anything else, and nothing else about the holder changed. */
  ghost predicate Hears(w: World, w': World, c: nat, frames: seq<Frame>) {
    && Healthy(w, c) && Healthy(w', c) && |w'.conns| == |w.conns|
    && w'.conns[c].trace == w.conns[c].trace + frames
    && forall d :: 0 <= d < |w.conns| && d != c ==> w'.conns[d] == w.conns[d]
  }

  /** The holder of the store may speak. */
  predicate Speaks(w: World, c: nat) {
    c < |w.conns| && w.conns[c].established && !w.conns[c].ended && !w.conns[c].revoked
  }

  lemma HolderSpeaks(w: World, c: nat)
    requires Inv(w, Quiet) && w.bound == Some(c)
    ensures Speaks(w, c)
  {
    assert ConnOk(w, c, Quiet);
  }

  lemma HearsTransitive(u: World, v: World, w: World, c: nat, a: seq<Frame>, b: seq<Frame>)
    requires Hears(u, v, c, a) && Hears(v, w, c, b)
    ensures Hears(u, w, c, a + b)
  {
    assert (u.conns[c].trace + a) + b == u.conns[c].trace + (a + b);
  }

  function DataFrames(id: string, h: nat, chunks: seq<string>): (r: seq<Frame>)
    ensures |r| == |chunks|
  {
    seq(|chunks|, i requires 0 <= i < |chunks| => Data(id, h, chunks[i]))
  }

  lemma DeliverIsHeard(w: World, c: nat, f: Frame)
    requires Wf(w) && Healthy(w, c)
    ensures Hears(w, Deliver(w, f), c, [f]) && Deliver(w, f).panes == w.panes
  {
  }

  lemma DataIsHeard(w: World, c: nat, id: string, h: nat, text: string)
    requires Wf(w) && Healthy(w, c)
    ensures var w' := DeliverData(w, id, h, text);
      && Hears(w, w', c, [Data(id, h, text)])
      && forall other :: other in w.panes ==> w'.panes[other] == w.panes[other].(paused := w'.panes[other].paused)
  {
  }

  lemma {:induction false} ChunksAreHeard(w: World, c: nat, id: string, h: nat, chunks: seq<string>)
    requires Wf(w) && Healthy(w, c)
    ensures var w' := DeliverAll(w, id, h, chunks);
      && Hears(w, w', c, DataFrames(id, h, chunks))
      && forall other :: other in w.panes ==> w'.panes[other] == w.panes[other].(paused := w'.panes[other].paused)
    decreases |chunks|
  {
    if chunks == [] {
      assert w.conns[c].trace + DataFrames(id, h, []) == w.conns[c].trace;
    } else {
      var w1 := DeliverData(w, id, h, chunks[0]);
      DataIsHeard(w, c, id, h, chunks[0]);
      ChunksAreHeard(w1, c, id, h, chunks[1..]);
      HearsTransitive(w, w1, DeliverAll(w, id, h, chunks), c, [Data(id, h, chunks[0])], DataFrames(id, h, chunks[1..]));
      assert DataFrames(id, h, chunks) == [Data(id, h, chunks[0])] + DataFrames(id, h, chunks[1..]);
    }
  }

  /** The pane behind `h` is live and pushes to the holder. */
  predicate Pushed(w: World, h: nat) {
    Live(w, h) && w.panes[w.handles[h].id].subscribed
  }

  // ---------------------------------------------------------------- what a backend reports

  /** A status change of a pane that pushes is told, once; of any other pane, nobody is told. */
  lemma StatusIsTold(w: World, c: nat, h: nat)
    requires Wf(w) && Healthy(w, c)
    ensures var w' := Step(w, Backend(StatusChange(h)));
      if Pushed(w, h) then Hears(w, w', c, [Status(w.handles[h].id, h)]) else w' == w
  {
    if Pushed(w, h) { DeliverIsHeard(w, c, Status(w.handles[h].id, h)); }
  }

  /** Output of a pane that pushes is told at once or joins what its open window holds; no other is told. */
  lemma OutputIsTold(w: World, c: nat, h: nat, text: string, replayFails: bool)
    requires Wf(w) && Healthy(w, c)
    ensures var w' := Step(w, Backend(Output(h, text, replayFails)));
      && (Pushed(w, h) && w.panes[w.handles[h].id].holds == 0 ==> Hears(w, w', c, [Data(w.handles[h].id, h, text)]))
      && (Pushed(w, h) && w.panes[w.handles[h].id].holds > 0 ==>
            w'.conns == w.conns
            && w.handles[h].id in w'.panes
            && w'.panes[w.handles[h].id].held == w.panes[w.handles[h].id].held + [text])
      && (!Pushed(w, h) ==> w'.conns == w.conns)
  {
    if Live(w, h) {
      var id := w.handles[h].id;
      var w1 := w.(handles := w.handles[h := w.handles[h].(emitted := w.handles[h].emitted + [text])],
                   panes := w.panes[id := FeedReplay(w.panes[id], text, replayFails)]);
      if Pushed(w, h) && w.panes[id].holds == 0 { DataIsHeard(w1, c, id, h, text); }
    }
  }

  /** The last words of a pane: what was held, the status if it changed, and the exit with its code. */
  function LastWords(id: string, h: nat, held: seq<string>, code: int, finalStatus: bool): seq<Frame> {
    DataFrames(id, h, held) + (if finalStatus then [Status(id, h)] else []) + [Exit(id, h, code)]
  }

  /** The exit of a pane that pushes is told in exactly this order; of any other, nobody is told. The pane is gone. */
  lemma ExitIsTold(w: World, c: nat, h: nat, code: int, finalStatus: bool)
    requires Inv(w, Quiet) && Healthy(w, c) && Live(w, h)
    ensures var id := w.handles[h].id;
      var w' := Step(w, Backend(HandleEvent.Exited(h, code, finalStatus)));
      && id !in w'.panes && w'.handles[h].state == Gone(code)
      && (if Pushed(w, h) then Hears(w, w', c, LastWords(id, h, w.panes[id].held, code, finalStatus))
          else w'.conns == w.conns)
  {
    LiveMeansRunning(w, h);
    RunningExitIsTold(w, c, h, code, finalStatus);
  }

  lemma RunningExitIsTold(w: World, c: nat, h: nat, code: int, finalStatus: bool)
    requires Wf(w) && Healthy(w, c) && Live(w, h) && w.handles[h].state.Running?
    ensures var id := w.handles[h].id;
      var w' := Step(w, Backend(HandleEvent.Exited(h, code, finalStatus)));
      && id !in w'.panes && w'.handles[h].state == Gone(code)
      && (if Pushed(w, h) then Hears(w, w', c, LastWords(id, h, w.panes[id].held, code, finalStatus))
          else w'.conns == w.conns)
  {
    var id := w.handles[h].id;
    ExitUnfolds(w, h, code, finalStatus);
    if Pushed(w, h) {
      LastWordsAreHeard(w, c, id, code, finalStatus);
    } else {
      UnpushedExit(w, id, code, finalStatus);
    }
  }

  lemma ExitUnfolds(w: World, h: nat, code: int, finalStatus: bool)
    requires Wf(w) && Live(w, h) && w.handles[h].state.Running?
    ensures var w1, w' := PaneExited(w, w.handles[h].id, code, finalStatus),
                          Step(w, Backend(HandleEvent.Exited(h, code, finalStatus)));
      w' == w1.(handles := w1.handles[h := w1.handles[h].(state := Gone(code))])
  {
  }

  lemma UnpushedExit(w: World, id: string, code: int, finalStatus: bool)
    requires Wf(w) && id in w.panes && !w.panes[id].subscribed
    ensures PaneExited(w, id, code, finalStatus).conns == w.conns && id !in PaneExited(w, id, code, finalStatus).panes
    ensures PaneExited(w, id, code, finalStatus).handles == w.handles
  {
  }

  lemma LastWordsAreHeard(w: World, c: nat, id: string, code: int, finalStatus: bool)
    requires Wf(w) && Healthy(w, c) && id in w.panes && w.panes[id].subscribed
    ensures var w', rec := PaneExited(w, id, code, finalStatus), w.panes[id];
      && Hears(w, w', c, LastWords(id, rec.handle, rec.held, code, finalStatus))
      && id !in w'.panes && w'.handles == w.handles
  {
    var rec := w.panes[id];
    var h, status := rec.handle, if finalStatus then [Status(id, rec.handle)] else [];
    FlushIsHeard(w, c, id);
    var w1 := FlushHeld(w, id);
    var w2 := w1.(gate := Prune(w1.gate, id));
    LastStatusIsHeard(w2, c, id, finalStatus);
    var w3 := if finalStatus then RouteStatus(w2, id) else w2;
    HearsTransitive(w, w2, w3, c, DataFrames(id, h, rec.held), status);
    FarewellIsHeard(w3, c, id, code);
    HearsTransitive(w, w3, Farewell(w3, id, code), c, DataFrames(id, h, rec.held) + status, [Exit(id, h, code)]);
  }

  lemma FlushIsHeard(w: World, c: nat, id: string)
    requires Wf(w) && Healthy(w, c) && id in w.panes && w.panes[id].subscribed
    ensures var w', rec := FlushHeld(w, id), w.panes[id];
      && Hears(w, w', c, DataFrames(id, rec.handle, rec.held))
      && w'.panes[id].subscribed && w'.panes[id].handle == rec.handle
  {
    var rec := w.panes[id];
    ChunksAreHeard(w.(panes := w.panes[id := rec.(held := [])]), c, id, rec.handle, rec.held);
  }

  lemma LastStatusIsHeard(w: World, c: nat, id: string, finalStatus: bool)
    requires Wf(w) && Healthy(w, c) && id in w.panes && w.panes[id].subscribed
    ensures var w' := if finalStatus then RouteStatus(w, id) else w;
      && Hears(w, w', c, if finalStatus then [Status(id, w.panes[id].handle)] else []) && w'.panes == w.panes
  {
    if finalStatus { DeliverIsHeard(w, c, Status(id, w.panes[id].handle)); }
    assert w.conns[c].trace + [] == w.conns[c].trace;
  }

  lemma FarewellIsHeard(w: World, c: nat, id: string, code: int)
    requires Wf(w) && Healthy(w, c) && id in w.panes && w.panes[id].subscribed
    ensures Hears(w, Farewell(w, id, code), c, [Exit(id, w.panes[id].handle, code)])
    ensures id !in Farewell(w, id, code).panes
  {
    DeliverIsHeard(Forget(w, id), c, Exit(id, w.panes[id].handle, code));
  }

  // ---------------------------------------------------------------- spawning

  /** A spawn that succeeds tells its status and then the answer; one that fails leaves no pane behind. */
  lemma SpawnIsTold(w: World, c: nat, id: string, backendOk: bool)
    requires Inv(w, Quiet) && Healthy(w, c) && id !in w.panes
    ensures var h, k := |w.handles|, w.conns[c].requests;
      var w' := Step(w, Inbound(c, Req(Spawn(id, backendOk, []))));
      && Hears(w, w', c, [Status(id, h), Response(k, if backendOk then Spawned(false) else Failed(SpawnFailed))])
      && w'.panes.Keys == (if backendOk then w.panes.Keys + {id} else w.panes.Keys)
      && (backendOk ==> w'.panes[id].handle == h && w'.panes[id].subscribed && |w'.handles| == h + 1)
      && forall other :: other in w.panes ==> w'.panes[other] == w.panes[other]
  {
    HolderSpeaks(w, c);
    FreshSpawnIsTold(w, c, id, backendOk);
    SpawnLeavesOthers(w, c, id, backendOk);
  }

  lemma FreshSpawnIsTold(w: World, c: nat, id: string, backendOk: bool)
    requires Wf(w) && Healthy(w, c) && Speaks(w, c) && id !in w.panes
    ensures var h, k := |w.handles|, w.conns[c].requests;
      var w' := Step(w, Inbound(c, Req(Spawn(id, backendOk, []))));
      Hears(w, w', c, [Status(id, h), Response(k, if backendOk then Spawned(false) else Failed(SpawnFailed))])
  {
    var h, k, n := |w.handles|, w.conns[c].requests, Numbered(w, c);
    var w0 := Register(n, c, id);
    DeliverIsHeard(w0, c, Status(id, h));
    var w1 := RouteStatus(w0, id);
    var w2 := if backendOk then w1 else Unregister(w1, id, h);
    var reply := if backendOk then Spawned(false) else Failed(SpawnFailed);
    assert SpawnPane(n, c, id, backendOk, []) == (w2, reply);
    assert w.conns[c].trace + [Status(id, h)] + [Response(k, reply)] ==
      w.conns[c].trace + [Status(id, h), Response(k, reply)];
  }

  lemma SpawnLeavesOthers(w: World, c: nat, id: string, backendOk: bool)
    requires Wf(w) && Healthy(w, c) && Speaks(w, c) && id !in w.panes
    ensures var h, w' := |w.handles|, Step(w, Inbound(c, Req(Spawn(id, backendOk, []))));
      && w'.panes.Keys == (if backendOk then w.panes.Keys + {id} else w.panes.Keys)
      && (backendOk ==> w'.panes[id].handle == h && w'.panes[id].subscribed && |w'.handles| == h + 1)
      && forall other :: other in w.panes ==> w'.panes[other] == w.panes[other]
  {
    var n := Numbered(w, c);
    DeliverIsHeard(Register(n, c, id), c, Status(id, |w.handles|));
  }

  /** A spawn of a pane that lives adopts it: answered, nothing respawned, nothing replayed. */
  lemma AdoptionIsTold(w: World, c: nat, id: string, backendOk: bool, during: seq<HandleEvent>)
    requires Inv(w, Quiet) && Healthy(w, c) && id in w.panes
    ensures var w' := Step(w, Inbound(c, Req(Spawn(id, backendOk, during))));
      && Hears(w, w', c, [Response(w.conns[c].requests, Spawned(true))])
      && w'.handles == w.handles && w'.panes == w.panes[id := w.panes[id].(subscribed := true)]
  {
    HolderSpeaks(w, c);
    LiveSpawnIsTold(w, c, id, backendOk, during);
  }

  lemma LiveSpawnIsTold(w: World, c: nat, id: string, backendOk: bool, during: seq<HandleEvent>)
    requires Wf(w) && Healthy(w, c) && Speaks(w, c) && id in w.panes
    ensures var w' := Step(w, Inbound(c, Req(Spawn(id, backendOk, during))));
      && Hears(w, w', c, [Response(w.conns[c].requests, Spawned(true))])
      && w'.handles == w.handles && w'.panes == w.panes[id := w.panes[id].(subscribed := true)]
  {
    if w.panes[id].subscribed { assert w.panes[id := w.panes[id].(subscribed := true)] == w.panes; }
  }

  // ---------------------------------------------------------------- what requests set off

  function Backends(during: seq<HandleEvent>): seq<Event> {
    seq(|during|, i requires 0 <= i < |during| => Backend(during[i]))
  }

  /** What a backend reports before a call returns takes effect as if it had reported it by itself. */
  lemma {:induction false} CallbacksAreEvents(w: World, during: seq<HandleEvent>)
    requires Wf(w)
    ensures Callbacks(w, during) == Run(w, Backends(during))
    decreases |during|
  {
    if during != [] {
      CallbacksAreEvents(Callback(w, during[0]), during[1..]);
      assert Backends(during)[1..] == Backends(during[1..]);
    }
  }

  /** A write, resize or kill of a live pane: number it, let the backend's reports take effect, answer. */
  lemma DrivingRunsTheBackend(w: World, c: nat, r: Request, during: seq<HandleEvent>, id: string)
    requires Wf(w) && Speaks(w, c) && id in w.panes
    requires r in {Request.Write(id, during), Request.Resize(id, during), Request.Kill(id, during)}
    ensures Callbacks(Numbered(w, c), during) == Run(Numbered(w, c), Backends(during))
    ensures Step(w, Inbound(c, Req(r))) ==
      Answer(Callbacks(Numbered(w, c), during), c, w.conns[c].requests, Done)
  {
    CallbacksAreEvents(Numbered(w, c), during);
  }

  /** A spawn that succeeds: the backend's reports take effect on the pane that a spawn without any leaves. */
  lemma SpawningRunsTheBackend(w: World, c: nat, id: string, during: seq<HandleEvent>)
    requires Wf(w) && Speaks(w, c) && id !in w.panes && !w.destroyed
    ensures var quiet := SpawnPane(Numbered(w, c), c, id, true, []).0;
      && Callbacks(quiet, during) == Run(quiet, Backends(during))
      && Step(w, Inbound(c, Req(Spawn(id, true, during)))) ==
           Answer(Callbacks(quiet, during), c, w.conns[c].requests, Spawned(false))
  {
    CallbacksAreEvents(SpawnPane(Numbered(w, c), c, id, true, []).0, during);
    SpawnThenReports(Numbered(w, c), c, id, during);
    RequestUnfolds(w, c, Spawn(id, true, during));
  }

  lemma SpawnThenReports(w: World, c: nat, id: string, during: seq<HandleEvent>)
    requires Wf(w) && c < |w.conns| && id !in w.panes && !w.destroyed
    ensures SpawnPane(w, c, id, true, during) == (Callbacks(SpawnPane(w, c, id, true, []).0, during), Spawned(false))
  {
  }

  lemma RequestUnfolds(w: World, c: nat, r: Request)
    requires Wf(w) && Speaks(w, c) && !r.AttachTo?
    ensures var (w1, reply) := Serve(Numbered(w, c), c, r);
      Step(w, Inbound(c, Req(r))) == Answer(w1, c, w.conns[c].requests, reply)
  {
  }

  // ---------------------------------------------------------------- what comes in

  predicate Ignored(item: Item) {
    item.MessageError? || item.GoodHello? || item.BadHello? || item.Unexpected?
  }

  /**
   * Whatever comes in on a connection that has ended is ignored; before the handshake anything but a good
   * hello ends the connection and does nothing else; after it, only a fatal item ends it, and items that
   * are neither requests nor flow control do nothing at all.
   */
  lemma ItemsAreGated(w: World, c: nat, item: Item)
    requires Inv(w, Quiet) && c < |w.conns|
    ensures var w', conn := Step(w, Inbound(c, item)), w.conns[c];
      && (conn.ended ==> w' == w)
      && (!conn.ended && !conn.established && !item.GoodHello? ==>
            w' == w.(conns := w.conns[c := conn.(ended := true)]))
      && (!conn.ended && conn.established && item.Fatal? ==> w'.conns[c] == conn.(ended := true) && w'.bound != Some(c))
      && (!conn.ended && conn.established && Ignored(item) ==> w' == w)
  {
    assert ConnOk(w, c, Quiet);
    if item.Fatal? && w.bound.Some? { assert ConnOk(w, w.bound.value, Quiet); }
  }

  /** The end of its input ends a connection and nothing else; a living store is free again if it held it. */
  lemma EndOfInputEnds(w: World, c: nat)
    requires Inv(w, Quiet) && c < |w.conns|
    ensures var w' := Step(w, EndOfInput(c));
      && w'.conns == w.conns[c := w.conns[c].(ended := true)]
      && (!w.destroyed ==> w'.bound == if w.bound == Some(c) then None else w.bound)
      && w'.handles == w.handles && w'.panes.Keys == w.panes.Keys
  {
    assert ConnOk(w, c, Quiet);
    if w.conns[c].ended { assert w.conns[c := w.conns[c].(ended := true)] == w.conns; }
  }

  /**
   * An attach to a pane whose replay works and that has no window open leaves the pane pushing, to this
   * connection, even when the serializer throws; its hold window is open exactly if the attach is under way.
   */
  lemma AttachSubscribes(w: World, c: nat, id: string, fails: bool)
    requires Wf(w) && Speaks(w, c) && id in w.panes && !w.panes[id].replayBroken && w.panes[id].holds == 0
    ensures var w', n := Step(w, Inbound(c, Req(AttachTo(id, fails)))), |w.attaches|;
      && id in w'.panes && w'.panes[id].subscribed && |w'.attaches| == n + 1
      && w'.attaches[n].conn == c && w'.attaches[n].request == w.conns[c].requests
      && (if w'.attaches[n].barrier.Refused? then w'.panes[id].holds == 0 && w'.attaches[n].barrier.code == Internal
          else w'.panes[id].holds == 1 && w'.attaches[n].handle == w.panes[id].handle)
  {
  }

  /** A window frame of the holder sets the pane's own window if the gate knows the pane, or else the shared one. */
  lemma WindowIsSet(w: World, c: nat, size: nat, pane: Option<string>)
    requires Inv(w, Quiet) && Healthy(w, c)
    ensures var g, g' := w.gate, Step(w, Inbound(c, WindowSize(size, pane))).gate;
      && g'.panes.Keys == g.panes.Keys
      && g'.defaultWindow == (if pane.None? then size else g.defaultWindow)
      && forall id :: id in g.panes ==>
           g'.panes[id].explicitWindow == (if pane == Some(id) then Some(size) else g.panes[id].explicitWindow)
  {
    HolderSpeaks(w, c);
    GateTakesWindow(w.gate, size, pane);
    WindowReachesTheGate(w, c, size, pane);
  }

  lemma GateTakesWindow(g: GateState, size: nat, pane: Option<string>)
    ensures var g' := OnWindow(g, size, pane).0;
      && g'.panes.Keys == g.panes.Keys
      && g'.defaultWindow == (if pane.None? then size else g.defaultWindow)
      && forall id :: id in g.panes ==>
           g'.panes[id].explicitWindow == (if pane == Some(id) then Some(size) else g.panes[id].explicitWindow)
  {
  }

  lemma WindowReachesTheGate(w: World, c: nat, size: nat, pane: Option<string>)
    requires Wf(w) && Healthy(w, c) && Speaks(w, c)
    ensures Step(w, Inbound(c, WindowSize(size, pane))).gate == OnWindow(w.gate, size, pane).0
  {
  }

  // ---------------------------------------------------------------- the store goes away

  /** Shut down: no pane, no holder, and nobody is told anything by it. */
  lemma ShutdownEmptiesTheStore(events: seq<Event>)
    ensures var w, w' := After(events), After(events + [Shutdown]);
      && w'.destroyed && w'.panes == map[]
      && (!w.destroyed ==> w'.bound.None?)
      && |w'.conns| == |w.conns| && forall c :: 0 <= c < |w.conns| ==> w'.conns[c].trace == w.conns[c].trace
  {
    AfterOneMore(events, Shutdown);
    EveryRun(events);
  }

  ghost predicate Empty(w: World) {
    Wf(w) && w.destroyed && w.panes == map[]
  }

  lemma {:induction false} CallbacksOnEmpty(w: World, events: seq<HandleEvent>)
    requires Empty(w)
    ensures Empty(Callbacks(w, events)) && Callbacks(w, events).conns == w.conns
    decreases |events|
  {
    if events != [] { CallbacksOnEmpty(Callback(w, events[0]), events[1..]); }
  }

  /** More connections may come; those there are push nothing more. */
  ghost predicate PushesNothing(w: World, w': World) {
    |w.conns| <= |w'.conns| && forall c :: 0 <= c < |w.conns| ==> Pushes(w'.conns[c].trace) == Pushes(w.conns[c].trace)
  }

  lemma ServeOnEmpty(w: World, c: nat, r: Request)
    requires Empty(w) && c < |w.conns| && !r.AttachTo?
    ensures Empty(Serve(w, c, r).0) && Serve(w, c, r).0.conns == w.conns
  {
    match r
    case Write(id, during) => CallbacksOnEmpty(w, during);
    case Resize(id, during) => CallbacksOnEmpty(w, during);
    case Kill(id, during) => CallbacksOnEmpty(w, during);
    case _ =>
  }

  lemma AnswerPushesNothing(w: World, c: nat, k: nat, reply: Reply)
    requires Empty(w) && c < |w.conns|
    ensures Empty(Answer(w, c, k, reply)) && PushesNothing(w, Answer(w, c, k, reply))
  {
    if !w.conns[c].ended { ResponseIsNoPush(w.conns[c], Response(k, reply)); }
  }

  lemma ResponseIsNoPush(conn: Conn, f: Frame)
    requires f.Response?
    ensures Pushes(Send(conn, f).0.trace) == Pushes(conn.trace)
  {
    PushesSnoc(conn.trace, f);
  }

  lemma AttachOnEmpty(w: World, c: nat, id: string, fails: bool)
    requires Empty(w) && c < |w.conns|
    ensures Empty(Dispatch(w, c, AttachTo(id, fails))) && PushesNothing(w, Dispatch(w, c, AttachTo(id, fails)))
  {
  }

  lemma RequestOnEmpty(w: World, c: nat, r: Request)
    requires Empty(w) && c < |w.conns|
    ensures Empty(Dispatch(w, c, r)) && PushesNothing(w, Dispatch(w, c, r))
  {
    if r.AttachTo? {
      AttachOnEmpty(w, c, r.id, r.snapshotFails);
    } else {
      var n := Numbered(w, c);
      ServeOnEmpty(n, c, r);
      AnswerPushesNothing(Serve(n, c, r).0, c, w.conns[c].requests, Serve(n, c, r).1);
    }
  }

  lemma {:induction false} HelloOnEmpty(w: World, r: Reconnect)
    requires Empty(w)
    ensures Empty(Establish(w, r)) && PushesNothing(w, Establish(w, r))
  {
    EstablishSendsNoPush(w, r);
    EstablishLeavesPanes(w, r);
  }

  lemma {:induction false} EstablishLeavesPanes(w: World, r: Reconnect)
    requires Wf(w)
    ensures Establish(w, r).panes.Keys == w.panes.Keys
    decreases r, 1
  {
    if r.conn < |w.conns| && !w.conns[r.conn].ended && !w.conns[r.conn].greeted {
      BindLeavesPanes(w.(conns := w.conns[r.conn := w.conns[r.conn].(greeted := true)]), r);
    }
  }

  lemma {:induction false} BindLeavesPanes(w: World, r: Reconnect)
    requires Wf(w) && r.conn < |w.conns|
    ensures Bind(w, r).panes.Keys == w.panes.Keys
    decreases r, 0
  {
    var w0 := w.(binds := w.binds + [r.conn]);
    if w0.bound.Some? {
      var incumbent := w0.bound.value;
      var w1 := UnbindInternal(w0);
      var w2 := if w1.conns[incumbent].ended then w1 else Reconnects(Revoke(w1, incumbent), r.inner);
      if !w1.conns[incumbent].ended { ReconnectsLeavePanes(Revoke(w1, incumbent), r.inner); }
      if w2.bound.Some? && !w2.conns[r.conn].ended { ReconnectsLeavePanes(Revoke(w2, r.conn), r.after); }
    }
  }

  lemma {:induction false} ReconnectsLeavePanes(w: World, rs: seq<Reconnect>)
    requires Wf(w)
    ensures Reconnects(w, rs).panes.Keys == w.panes.Keys
    decreases rs, 0
  {
    if rs != [] {
      EstablishLeavesPanes(w, rs[0]);
      ReconnectsLeavePanes(Establish(w, rs[0]), rs[1..]);
    }
  }

  lemma StepOnEmpty(w: World, e: Event)
    requires Empty(w)
    ensures Empty(Step(w, e)) && PushesNothing(w, Step(w, e))
  {
    match e
    case Inbound(c, item) => if c < |w.conns| { ItemOnEmpty(w, c, item); }
    case Backend(callback) => CallbacksOnEmpty(w, [callback]); assert [callback][1..] == [];
    case Settle(i) => SettleOnEmpty(w, i);
    case _ =>
  }

  lemma ItemOnEmpty(w: World, c: nat, item: Item)
    requires Empty(w) && c < |w.conns|
    ensures Empty(OnItem(w, c, item)) && PushesNothing(w, OnItem(w, c, item))
  {
    if item.Req? { RequestOnEmpty(w, c, item.request); }
    if item.GoodHello? { HelloOnEmpty(w, Reconnect(c, item.nested, item.after)); }
  }

  lemma SettleOnEmpty(w: World, i: nat)
    requires Empty(w)
    ensures Empty(SettleAttach(w, i)) && PushesNothing(w, SettleAttach(w, i))
  {
    if i < |w.attaches| && (w.attaches[i].barrier.Refused? || w.attaches[i].barrier.Ready?) {
      var a := w.attaches[i];
      var reply := Failed(if a.barrier.Refused? then a.barrier.code else UnknownPane);
      var closed := w.(attaches := w.attaches[i := a.(barrier := Settled(None))]);
      AnswerPushesNothing(closed, a.conn, a.request, reply);
    }
  }

  /** After the shutdown nobody is told anything about a pane any more, whatever comes. */
  lemma {:induction false} NothingIsPushedAfterShutdown(w: World, events: seq<Event>)
    requires Empty(w)
    ensures Empty(Run(w, events)) && PushesNothing(w, Run(w, events))
    decreases |events|
  {
    if events != [] {
      StepOnEmpty(w, events[0]);
      NothingIsPushedAfterShutdown(Step(w, events[0]), events[1..]);
    }
  }
}
