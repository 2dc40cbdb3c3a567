/** The flow gate keeps the books of the wire: what it holds outstanding is what was sent less what was acknowledged. */
module AgentAccounts {
  import opened Chunks
  import opened FlowControl
  import opened Replay
  import opened AgentWorld
  import opened AgentInvariant
  import AgentDelivery
  import opened AgentLease
  import opened AgentHistory
  import opened AgentRuns
  import opened AgentTheorems
  import opened AgentSubscriptions
  import opened AgentAnswers

  /** How much data about handle `h` a trace carries. */
  function Bytes(trace: seq<Frame>, h: nat): nat {
    if trace == [] then 0
    else
      var last := trace[|trace| - 1];
      Bytes(trace[..|trace| - 1], h) + if last.Data? && last.handle == h then |last.text| else 0
  }

  lemma BytesSnoc(trace: seq<Frame>, f: Frame, h: nat)
    ensures Bytes(trace + [f], h) == Bytes(trace, h) + if f.Data? && f.handle == h then |f.text| else 0
  {
    assert (trace + [f])[..|trace|] == trace;
  }

  lemma {:induction false} NoBytes(trace: seq<Frame>, h: nat)
    requires forall n :: 0 <= n < |trace| && trace[n].Data? ==> trace[n].handle != h
    ensures Bytes(trace, h) == 0
    decreases |trace|
  {
    if trace != [] { NoBytes(trace[..|trace| - 1], h); }
  }

  /** What is outstanding beyond what was ever sent: never changed but by acknowledgements. */
  function Slack(w: World, c: nat, id: string): int
    requires c < |w.conns| && id in w.panes
  {
    Unacked(w.gate, id) - Bytes(w.conns[c].trace, w.panes[id].handle)
  }

  /** Pane records and handles belong together. */
  ghost predicate HandlesFit(w: World) {
    forall id :: id in w.panes ==> w.panes[id].handle < |w.handles| && w.handles[w.panes[id].handle].id == id
  }

  ghost predicate HolderSpeaks(w: World) {
    w.bound.Some? ==> w.bound.value < |w.conns| && !w.conns[w.bound.value].ended
  }

  /** The holder is the same or gone; every pane but `x` is the same, with the same slack, or gone. */
  ghost predicate Booked(w: World, w': World, x: set<string>) {
    && Wf(w) && Wf(w') && |w'.conns| == |w.conns| && HandlesFit(w') && HolderSpeaks(w')
    && (w'.bound == w.bound || w'.bound.None?)
    && (forall id :: id in w'.panes ==> id in w.panes && w'.panes[id].handle == w.panes[id].handle)
    && (w'.bound.Some? ==>
          forall id :: id in w'.panes && id !in x ==> Slack(w', w'.bound.value, id) == Slack(w, w'.bound.value, id))
  }

  lemma BookedTransitive(u: World, v: World, w: World, x: set<string>)
    requires Booked(u, v, x) && Booked(v, w, x)
    ensures Booked(u, w, x)
  {
  }

  // ---------------------------------------------------------------- every operation but an ack

  lemma SilentIsBooked(w: World, w': World)
    requires Wf(w) && Wf(w') && HandlesFit(w') && |w'.conns| == |w.conns|
    requires w'.bound == w.bound || w'.bound.None?
    requires forall c :: 0 <= c < |w.conns| ==> w'.conns[c].trace == w.conns[c].trace
    requires HolderSpeaks(w')
    requires forall id :: id in w'.panes ==> id in w.panes && w'.panes[id].handle == w.panes[id].handle
    requires w'.bound.Some? ==> forall id :: id in w'.panes ==> Unacked(w'.gate, id) == Unacked(w.gate, id)
    ensures Booked(w, w', {})
  {
  }

  lemma DeliverIsBooked(w: World, f: Frame)
    requires Wf(w) && HandlesFit(w) && HolderSpeaks(w) && !f.Data?
    ensures Booked(w, Deliver(w, f), {})
  {
    if w.bound.Some? {
      var c := w.bound.value;
      var (conn, sent) := Send(w.conns[c], f);
      var w1 := w.(conns := w.conns[c := conn]);
      OneFrameIsBooked(w, c, conn, f);
      if !sent {
        SilentIsBooked(w1, Deliver(w, f));
        BookedTransitive(w, w1, Deliver(w, f), {});
      }
    } else {
      SilentIsBooked(w, w);
    }
  }

  /** The gate counts the chunk for its own pane and leaves the others alone. */
  lemma EmittedIsCounted(g: GateState, id: string, text: string)
    ensures Unacked(OnDataEmitted(g, id, text).0, id) == Unacked(g, id) + |text|
    ensures forall other :: other != id ==> Unacked(OnDataEmitted(g, id, text).0, other) == Unacked(g, other)
  {
  }

  lemma DataIsBooked(w: World, id: string, h: nat, text: string)
    requires Wf(w) && HandlesFit(w) && id in w.panes && w.panes[id].handle == h
    requires HolderSpeaks(w)
    ensures Booked(w, DeliverData(w, id, h, text), {})
  {
    if w.bound.Some? {
      var c, f := w.bound.value, Data(id, h, text);
      forall k: nat
        ensures Bytes(w.conns[c].trace + [f], k) == Bytes(w.conns[c].trace, k) + if k == h then |text| else 0
      {
        BytesSnoc(w.conns[c].trace, f, k);
      }
      var w1 := Deliver(w, f);
      EmittedIsCounted(w1.gate, id, text);
      if w1.bound.Some? { SentIsBooked(w, w1, DeliverData(w, id, h, text), c, id, text); }
    }
  }

  lemma SentIsBooked(w: World, w1: World, w': World, c: nat, id: string, text: string)
    requires Wf(w) && Wf(w') && HandlesFit(w) && HandlesFit(w') && c < |w.conns| && id in w.panes
    requires w.bound == w'.bound == Some(c) && |w'.conns| == |w.conns| && w1.gate == w.gate && HolderSpeaks(w')
    requires w'.panes.Keys == w.panes.Keys
    requires forall other :: other in w.panes ==> w'.panes[other].handle == w.panes[other].handle
    requires w'.gate == OnDataEmitted(w1.gate, id, text).0
    requires w'.conns[c].trace == w.conns[c].trace + [Data(id, w.panes[id].handle, text)]
    ensures Booked(w, w', {})
  {
    EmittedIsCounted(w.gate, id, text);
    forall other | other in w'.panes ensures Slack(w', c, other) == Slack(w, c, other) {
      BytesSnoc(w.conns[c].trace, Data(id, w.panes[id].handle, text), w.panes[other].handle);
    }
  }

  lemma {:induction false} DeliverAllIsBooked(w: World, id: string, h: nat, chunks: seq<string>)
    requires Wf(w) && HandlesFit(w) && id in w.panes && w.panes[id].handle == h
    requires HolderSpeaks(w)
    ensures Booked(w, DeliverAll(w, id, h, chunks), {})
    decreases |chunks|
  {
    if chunks == [] {
      SilentIsBooked(w, w);
    } else {
      var w1 := DeliverData(w, id, h, chunks[0]);
      DataIsBooked(w, id, h, chunks[0]);
      DeliverAllIsBooked(w1, id, h, chunks[1..]);
      BookedTransitive(w, w1, DeliverAll(w, id, h, chunks), {});
    }
  }

  lemma RouteStatusIsBooked(w: World, id: string)
    requires Wf(w) && HandlesFit(w) && HolderSpeaks(w)
    ensures Booked(w, RouteStatus(w, id), {})
  {
    if !w.destroyed && w.bound.Some? && id in w.panes && w.panes[id].subscribed {
      DeliverIsBooked(w, Status(id, w.panes[id].handle));
    } else {
      SilentIsBooked(w, w);
    }
  }

  lemma RouteDataIsBooked(w: World, id: string, text: string)
    requires Wf(w) && HandlesFit(w) && HolderSpeaks(w)
    ensures Booked(w, RouteData(w, id, text), {})
  {
    if !w.destroyed && w.bound.Some? && id in w.panes && w.panes[id].subscribed && w.panes[id].holds == 0 {
      DataIsBooked(w, id, w.panes[id].handle, text);
    } else {
      HoldIsBooked(w, id, text);
    }
  }

  lemma HoldIsBooked(w: World, id: string, text: string)
    requires Wf(w) && HandlesFit(w) && HolderSpeaks(w)
    requires w.destroyed || w.bound.None? || id !in w.panes || !w.panes[id].subscribed || w.panes[id].holds > 0
    ensures Booked(w, RouteData(w, id, text), {})
  {
    SilentIsBooked(w, RouteData(w, id, text));
  }

  lemma OnDataIsBooked(w: World, h: nat, text: string, replayFails: bool)
    requires Wf(w) && HandlesFit(w) && HolderSpeaks(w)
    ensures Booked(w, OnData(w, h, text, replayFails), {})
  {
    if Live(w, h) {
      var id := w.handles[h].id;
      var w1 := w.(handles := w.handles[h := w.handles[h].(emitted := w.handles[h].emitted + [text])],
                   panes := w.panes[id := FeedReplay(w.panes[id], text, replayFails)]);
      SilentIsBooked(w, w1);
      RouteDataIsBooked(w1, id, text);
      BookedTransitive(w, w1, RouteData(w1, id, text), {});
    } else {
      SilentIsBooked(w, w);
    }
  }

  lemma FlushHeldIsBooked(w: World, id: string)
    requires Wf(w) && HandlesFit(w) && HolderSpeaks(w) && id in w.panes
    ensures Booked(w, FlushHeld(w, id), {})
  {
    var rec := w.panes[id];
    var w0 := w.(panes := w.panes[id := rec.(held := [])]);
    SilentIsBooked(w, w0);
    DeliverAllIsBooked(w0, id, rec.handle, rec.held);
    BookedTransitive(w, w0, DeliverAll(w0, id, rec.handle, rec.held), {});
  }

  lemma FarewellIsBooked(w: World, id: string, code: int)
    requires Wf(w) && HandlesFit(w) && HolderSpeaks(w) && id in w.panes
    ensures Booked(w, Farewell(w, id, code), {}) && id !in Farewell(w, id, code).panes
  {
    var w1, f := Forget(w, id), Exit(id, w.panes[id].handle, code);
    SilentIsBooked(w, w1);
    DeliverIsBooked(w1, f);
    BookedTransitive(w, w1, Deliver(w1, f), {});
  }

  /** The gate forgets the pane that is about to go. */
  lemma PruneIsBooked(w: World, id: string)
    requires Wf(w) && HandlesFit(w) && HolderSpeaks(w)
    ensures Booked(w, w.(gate := Prune(w.gate, id)), {id})
  {
  }

  lemma WeakerBooked(w: World, w': World, x: set<string>)
    requires Booked(w, w', {})
    ensures Booked(w, w', x)
  {
  }

  lemma PaneExitedIsBooked(w: World, id: string, code: int, finalStatus: bool)
    requires Wf(w) && HandlesFit(w) && HolderSpeaks(w)
    ensures Booked(w, PaneExited(w, id, code, finalStatus), {})
  {
    if id in w.panes {
      var w1 := FlushHeld(w, id);
      FlushHeldIsBooked(w, id);
      var w2 := w1.(gate := Prune(w1.gate, id));
      PruneIsBooked(w1, id);
      var w3 := if finalStatus then RouteStatus(w2, id) else w2;
      RouteStatusIsBooked(w2, id);
      SilentIsBooked(w2, w2);
      FarewellIsBooked(w3, id, code);
      LastStepsAreBooked(w, w1, w2, w3, Farewell(w3, id, code), id);
    } else {
      SilentIsBooked(w, w);
    }
  }

  lemma LastStepsAreBooked(w: World, w1: World, w2: World, w3: World, w4: World, id: string)
    requires Booked(w, w1, {}) && Booked(w1, w2, {id}) && Booked(w2, w3, {}) && Booked(w3, w4, {}) && id !in w4.panes
    ensures Booked(w, w4, {})
  {
    WeakerBooked(w, w1, {id});
    WeakerBooked(w2, w3, {id});
    WeakerBooked(w3, w4, {id});
    BookedTransitive(w, w1, w2, {id});
    BookedTransitive(w, w2, w3, {id});
    BookedTransitive(w, w3, w4, {id});
  }

  lemma CallbackIsBooked(w: World, e: HandleEvent)
    requires Wf(w) && HandlesFit(w) && HolderSpeaks(w)
    ensures Booked(w, Callback(w, e), {})
  {
    SilentIsBooked(w, w);
    match e
    case Output(h, text, replayFails) => OnDataIsBooked(w, h, text, replayFails);
    case StatusChange(h) => if Live(w, h) { RouteStatusIsBooked(w, w.handles[h].id); }
    case Exited(h, code, finalStatus) =>
      if h < |w.handles| && w.handles[h].state.Running? {
        var w1 := PaneExited(w, w.handles[h].id, code, finalStatus);
        PaneExitedIsBooked(w, w.handles[h].id, code, finalStatus);
        StateIsBooked(w1, h, Gone(code));
        BookedTransitive(w, w1, Callback(w, e), {});
      }
  }

  lemma StateIsBooked(w: World, h: nat, state: HandleState)
    requires Wf(w) && HandlesFit(w) && HolderSpeaks(w) && h < |w.handles|
    ensures Booked(w, w.(handles := w.handles[h := w.handles[h].(state := state)]), {})
  {
    SilentIsBooked(w, w.(handles := w.handles[h := w.handles[h].(state := state)]));
  }

  lemma {:induction false} CallbacksAreBooked(w: World, events: seq<HandleEvent>)
    requires Wf(w) && HandlesFit(w) && HolderSpeaks(w)
    ensures Booked(w, Callbacks(w, events), {})
    decreases |events|
  {
    if events == [] {
      SilentIsBooked(w, w);
    } else {
      CallbackIsBooked(w, events[0]);
      CallbacksAreBooked(Callback(w, events[0]), events[1..]);
      BookedTransitive(w, Callback(w, events[0]), Callbacks(w, events), {});
    }
  }

  lemma ReleaseIsBooked(w: World, a: Attach)
    requires Wf(w) && HandlesFit(w) && HolderSpeaks(w)
    ensures Booked(w, Release(w, a), {})
  {
    if a.gen == w.bindGen && a.id in w.panes && w.panes[a.id].handle == a.handle {
      var rec := w.panes[a.id];
      var open := rec.(holds := if rec.holds > 0 then rec.holds - 1 else 0);
      if open.holds > 0 {
        SilentIsBooked(w, Release(w, a));
      } else {
        var w1 := w.(panes := w.panes[a.id := open.(held := [])]);
        SilentIsBooked(w, w1);
        DeliverAllIsBooked(w1, a.id, a.handle, rec.held);
        BookedTransitive(w, w1, DeliverAll(w1, a.id, a.handle, rec.held), {});
      }
    } else {
      SilentIsBooked(w, w);
    }
  }

  // ---------------------------------------------------------------- requests

  /** A response is no data. */
  lemma AnswerIsBooked(w: World, c: nat, k: nat, reply: Reply)
    requires Wf(w) && HandlesFit(w) && HolderSpeaks(w) && c < |w.conns|
    ensures Booked(w, Answer(w, c, k, reply), {})
  {
    OneFrameIsBooked(w, c, Answer(w, c, k, reply).conns[c], Response(k, reply));
    assert Answer(w, c, k, reply) == w.(conns := w.conns[c := Answer(w, c, k, reply).conns[c]]);
  }

  lemma OneFrameIsBooked(w: World, c: nat, conn: Conn, f: Frame)
    requires Wf(w) && HandlesFit(w) && HolderSpeaks(w) && c < |w.conns| && !f.Data? && conn.ended == w.conns[c].ended
    requires conn.trace == w.conns[c].trace || conn.trace == w.conns[c].trace + [f]
    ensures Booked(w, w.(conns := w.conns[c := conn]), {})
  {
    forall h: nat ensures Bytes(w.conns[c].trace + [f], h) == Bytes(w.conns[c].trace, h) {
      BytesSnoc(w.conns[c].trace, f, h);
    }
  }

  /** A pane that was just registered has sent nothing, and the gate knows nothing of it. */
  lemma NewPaneIsEven(w: World, c: nat, id: string)
    requires Inv(w, Quiet) && w.bound == Some(c) && c < |w.conns| && id !in w.panes
    ensures var w0 := Register(Numbered(w, c), c, id);
      && HandlesFit(w0) && HolderSpeaks(w0) && Slack(w0, c, id) == 0
      && forall other :: other in w.panes ==> Slack(w0, c, other) == Slack(w, c, other)
  {
    assert ConnOk(w, c, Quiet);
    NoBytes(w.conns[c].trace, |w.handles|);
    forall other | other in w.panes ensures w.handles[w.panes[other].handle].id == other {
      assert PaneOk(w, other, Quiet);
    }
  }

  /** After a request of the holder: panes there were keep their slack, new ones have none. */
  ghost predicate Served(w: World, w': World, c: nat) {
    && w.bound == Some(c) && c < |w.conns| && |w'.conns| == |w.conns|
    && (w'.bound == w.bound || w'.bound.None?)
    && (w'.bound == Some(c) ==> forall id :: id in w'.panes ==>
          if id in w.panes && w'.panes[id].handle == w.panes[id].handle then Slack(w', c, id) == Slack(w, c, id)
          else Slack(w', c, id) == 0)
  }

  lemma InvFits(w: World)
    requires Inv(w, Quiet)
    ensures Wf(w) && HandlesFit(w) && HolderSpeaks(w)
  {
    forall id | id in w.panes ensures w.panes[id].handle < |w.handles| && w.handles[w.panes[id].handle].id == id {
      assert PaneOk(w, id, Quiet);
    }
  }

  lemma SpawnBooks(w: World, c: nat, id: string, backendOk: bool, during: seq<HandleEvent>)
    requires Inv(w, Quiet) && w.bound == Some(c) && c < |w.conns|
    ensures Served(w, SpawnPane(Numbered(w, c), c, id, backendOk, during).0, c)
    ensures var w' := SpawnPane(Numbered(w, c), c, id, backendOk, during).0; HandlesFit(w') && HolderSpeaks(w')
  {
    InvFits(w);
    if !w.destroyed && id !in w.panes {
      NewPaneIsEven(w, c, id);
      FreshSpawnBooks(w, c, id, backendOk, during);
    } else {
      OldSpawnBooks(w, c, id, backendOk, during);
    }
  }

  lemma OldSpawnBooks(w: World, c: nat, id: string, backendOk: bool, during: seq<HandleEvent>)
    requires Wf(w) && HandlesFit(w) && HolderSpeaks(w) && w.bound == Some(c) && (w.destroyed || id in w.panes)
    ensures Served(w, SpawnPane(Numbered(w, c), c, id, backendOk, during).0, c)
    ensures var w' := SpawnPane(Numbered(w, c), c, id, backendOk, during).0; HandlesFit(w') && HolderSpeaks(w')
  {
  }

  lemma FreshSpawnBooks(w: World, c: nat, id: string, backendOk: bool, during: seq<HandleEvent>)
    requires Wf(w) && w.bound == Some(c) && !w.destroyed && id !in w.panes
    requires var w0 := Register(Numbered(w, c), c, id);
      && HandlesFit(w0) && HolderSpeaks(w0) && Slack(w0, c, id) == 0
      && forall other :: other in w.panes ==> Slack(w0, c, other) == Slack(w, c, other)
    ensures Served(w, SpawnPane(Numbered(w, c), c, id, backendOk, during).0, c)
    ensures var w' := SpawnPane(Numbered(w, c), c, id, backendOk, during).0; HandlesFit(w') && HolderSpeaks(w')
  {
    var w0 := Register(Numbered(w, c), c, id);
    var w2 := Spawned(w0, id, |w.handles|, backendOk, during);
    SpawnedIsBooked(w0, id, |w.handles|, backendOk, during);
    SpawnUnfolds(w, c, id, backendOk, during);
    RegisteredFacts(w, c, id);
    NewThenBooked(w, w0, w2, c, id);
  }

  lemma RegisteredFacts(w: World, c: nat, id: string)
    requires Wf(w) && c < |w.conns| && id !in w.panes
    ensures var w0 := Register(Numbered(w, c), c, id);
      && w0.bound == w.bound && |w0.conns| == |w.conns| && w0.panes.Keys == w.panes.Keys + {id}
      && forall other :: other in w.panes ==> w0.panes[other].handle == w.panes[other].handle
  {
  }

  lemma SpawnUnfolds(w: World, c: nat, id: string, backendOk: bool, during: seq<HandleEvent>)
    requires Wf(w) && c < |w.conns| && !w.destroyed && id !in w.panes
    ensures SpawnPane(Numbered(w, c), c, id, backendOk, during).0 ==
      Spawned(Register(Numbered(w, c), c, id), id, |w.handles|, backendOk, during)
  {
  }

  /** What follows the registration of a new pane. */
  function Spawned(w: World, id: string, h: nat, backendOk: bool, during: seq<HandleEvent>): World
    requires Wf(w) && id in w.panes && h < |w.handles|
  {
    if backendOk then Callbacks(RouteStatus(w, id), during) else Unregister(RouteStatus(w, id), id, h)
  }

  lemma SpawnedIsBooked(w: World, id: string, h: nat, backendOk: bool, during: seq<HandleEvent>)
    requires Wf(w) && HandlesFit(w) && HolderSpeaks(w) && id in w.panes && h < |w.handles|
    ensures Booked(w, Spawned(w, id, h, backendOk, during), {})
  {
    var w1 := RouteStatus(w, id);
    RouteStatusIsBooked(w, id);
    if backendOk { CallbacksAreBooked(w1, during); } else { SilentIsBooked(w1, Unregister(w1, id, h)); }
    BookedTransitive(w, w1, Spawned(w, id, h, backendOk, during), {});
  }

  lemma NewThenBooked(w: World, w0: World, w': World, c: nat, id: string)
    requires w.bound == Some(c) && c < |w.conns| && Booked(w0, w', {}) && w0.bound == w.bound && |w0.conns| == |w.conns|
    requires id !in w.panes && w0.panes.Keys == w.panes.Keys + {id} && Slack(w0, c, id) == 0
    requires forall other :: other in w.panes ==>
      w0.panes[other].handle == w.panes[other].handle && Slack(w0, c, other) == Slack(w, c, other)
    ensures Served(w, w', c) && HandlesFit(w') && HolderSpeaks(w')
  {
  }

  lemma ServeBooks(w: World, c: nat, r: Request)
    requires Inv(w, Quiet) && w.bound == Some(c) && c < |w.conns| && !r.AttachTo?
    ensures Served(w, Serve(Numbered(w, c), c, r).0, c)
    ensures var w' := Serve(Numbered(w, c), c, r).0; HandlesFit(w') && HolderSpeaks(w')
  {
    var n := Numbered(w, c);
    InvFits(w);
    SilentIsBooked(w, n);
    match r
    case Spawn(id, backendOk, during) => SpawnBooks(w, c, id, backendOk, during);
    case Write(id, during) => DriveBooks(w, n, c, during);
    case Resize(id, during) => DriveBooks(w, n, c, during);
    case Kill(id, during) => DriveBooks(w, n, c, during);
    case _ =>
  }

  lemma DriveBooks(w: World, n: World, c: nat, during: seq<HandleEvent>)
    requires Booked(w, n, {}) && w.bound == n.bound == Some(c)
    ensures Served(w, Callbacks(n, during), c) && HandlesFit(Callbacks(n, during)) && HolderSpeaks(Callbacks(n, during))
  {
    CallbacksAreBooked(n, during);
    BookedTransitive(w, n, Callbacks(n, during), {});
  }

  lemma DispatchBooks(w: World, c: nat, r: Request)
    requires Inv(w, Quiet) && w.bound == Some(c) && c < |w.conns|
    ensures Served(w, Dispatch(w, c, r), c)
  {
    var k := w.conns[c].requests;
    if r.AttachTo? {
      AttachBooks(w, c, r.id, r.snapshotFails);
    } else {
      ServeBooks(w, c, r);
      var (w1, reply) := Serve(Numbered(w, c), c, r);
      AnswerIsBooked(w1, c, k, reply);
      ServedThenBooked(w, w1, Answer(w1, c, k, reply), c);
    }
  }

  lemma AttachBooks(w: World, c: nat, id: string, fails: bool)
    requires Wf(w) && w.bound == Some(c) && c < |w.conns|
    ensures Served(w, Dispatch(w, c, AttachTo(id, fails)), c)
  {
  }

  lemma ServedThenBooked(w: World, w1: World, w': World, c: nat)
    requires Served(w, w1, c) && Booked(w1, w', {})
    ensures Served(w, w', c)
  {
  }

  // ---------------------------------------------------------------- a new holder starts even

  lemma {:induction false} BindStartsFresh(w: World, r: Reconnect)
    requires Wf(w) && r.conn < |w.conns| && (w.bound.None? ==> w.gate == NewGate)
    ensures Bind(w, r).gate == NewGate
    decreases r, 0
  {
    var w0 := w.(binds := w.binds + [r.conn]);
    if w0.bound.Some? {
      var incumbent := w0.bound.value;
      var w1 := UnbindInternal(w0);
      var w2 := if w1.conns[incumbent].ended then w1 else Reconnects(Revoke(w1, incumbent), r.inner);
      if !w1.conns[incumbent].ended { ReconnectsStartFresh(Revoke(w1, incumbent), r.inner); }
      if w2.bound.Some? && !w2.conns[r.conn].ended { ReconnectsStartFresh(Revoke(w2, r.conn), r.after); }
    }
  }

  lemma {:induction false} EstablishStartsFresh(w: World, r: Reconnect)
    requires Wf(w) && (w.bound.None? ==> w.gate == NewGate)
    ensures Establish(w, r).gate == NewGate || Establish(w, r) == w
    decreases r, 1
  {
    if r.conn < |w.conns| && !w.conns[r.conn].ended && !w.conns[r.conn].greeted {
      BindStartsFresh(w.(conns := w.conns[r.conn := w.conns[r.conn].(greeted := true)]), r);
    }
  }

  lemma {:induction false} ReconnectsStartFresh(w: World, rs: seq<Reconnect>)
    requires Wf(w) && w.gate == NewGate
    ensures Reconnects(w, rs).gate == NewGate
    decreases rs, 0
  {
    if rs != [] {
      EstablishStartsFresh(w, rs[0]);
      ReconnectsStartFresh(Establish(w, rs[0]), rs[1..]);
    }
  }

  /** A connection that was never established has been sent nothing about any pane. */
  lemma UnestablishedHeardNothing(w: World, c: nat, h: nat)
    requires Inv(w, Quiet) && Entitled(w) && c < |w.conns| && !w.conns[c].established
    ensures Bytes(w.conns[c].trace, h) == 0
  {
    var trace := w.conns[c].trace;
    assert TraceEntitled(w.ledger, c, trace);
    forall k | 0 <= k < |w.ledger| ensures w.ledger[k].conn != c { assert SubOk(w, k, Quiet); }
    forall h, n ensures !Listed(w.ledger, c, h, n) { NotListed(w.ledger, c, h, n); }
    NoBytes(trace, h);
  }

  lemma NotListed(ledger: seq<Sub>, c: nat, h: nat, n: nat)
    requires forall k :: 0 <= k < |ledger| ==> ledger[k].conn != c
    ensures !Listed(ledger, c, h, n)
  {
  }

  // ---------------------------------------------------------------- one step

  /** Connection `c`, which holds the store, acknowledges data of the pane behind `h`. */
  predicate Acks(w: World, e: Event, c: nat, h: nat) {
    && e.Inbound? && e.c == c && e.item.Ack? && w.bound == Some(c)
    && Live(w, h) && e.item.id == w.handles[h].id
  }

  function Less(n: nat, bytes: nat): nat {
    if bytes > n then 0 else n - bytes
  }

  /** What the step from `w` to `w'` does to the account of `h` with `c`. */
  ghost predicate Accounts(w: World, e: Event, w': World, c: nat, h: nat) {
    w'.bound == Some(c) && c < |w'.conns| && Live(w', h) ==>
      var id := w'.handles[h].id;
      if w.bound == Some(c) && c < |w.conns| && Live(w, h) then
        if Acks(w, e, c, h) then
          Unacked(w'.gate, id) == Less(Unacked(w.gate, id), e.item.bytes) && w'.conns[c].trace == w.conns[c].trace
        else
          w.handles[h].id == id && Slack(w', c, id) == Slack(w, c, id)
      else Slack(w', c, id) == 0
  }

  lemma BookedAccounts(w: World, e: Event, w': World, c: nat, h: nat)
    requires Inv(w, Quiet) && Booked(w, w', {}) && !e.Inbound?
    ensures Accounts(w, e, w', c, h)
  {
    if w'.bound == Some(c) && Live(w', h) { InvFits(w); }
  }

  lemma ServedAccounts(w: World, e: Event, w': World, c: nat, h: nat)
    requires Inv(w, Quiet) && Inv(w', Quiet) && w.bound.Some? && Served(w, w', w.bound.value)
    requires e.Inbound? && e.item.Req? && HandlesGoOn(w, w')
    ensures Accounts(w, e, w', c, h)
  {
    if w'.bound == Some(c) && Live(w', h) {
      InvFits(w);
      InvFits(w');
      if h < |w.handles| { assert HandleGoesOn(w.handles[h], w'.handles[h]); }
    }
  }

  lemma HelloAccounts(w: World, e: Event, r: Reconnect, c: nat, h: nat)
    requires Inv(w, Quiet) && Entitled(w) && Inv(Establish(w, r), Quiet) && e.Inbound? && e.item.GoodHello?
    ensures Accounts(w, e, Establish(w, r), c, h)
  {
    var w' := Establish(w, r);
    if w' == w {
      IdleAccounts(w, e, c, h);
    } else if w'.bound == Some(c) && Live(w', h) {
      EstablishStartsFresh(w, r);
      EstablishSendsNoPush(w, r);
      NewHolderIsNew(w, r, c);
      UnestablishedHeardNothing(w, c, h);
      BytesOfPushes(w.conns[c].trace, h);
      BytesOfPushes(w'.conns[c].trace, h);
    }
  }

  /** The frames of a trace that are about panes. */
  function Pushes(trace: seq<Frame>): seq<Frame> {
    if trace == [] then []
    else
      var last := trace[|trace| - 1];
      Pushes(trace[..|trace| - 1]) + if Concerns(last) then [last] else []
  }

  lemma PushesSnoc(trace: seq<Frame>, f: Frame)
    ensures Pushes(trace + [f]) == Pushes(trace) + if Concerns(f) then [f] else []
  {
    assert (trace + [f])[..|trace|] == trace;
  }

  lemma {:induction false} BytesOfPushes(trace: seq<Frame>, h: nat)
    ensures Bytes(Pushes(trace), h) == Bytes(trace, h)
    decreases |trace|
  {
    if trace != [] {
      var front, last := trace[..|trace| - 1], trace[|trace| - 1];
      BytesOfPushes(front, h);
      assert trace == front + [last];
      BytesSnoc(front, last, h);
      BytesSnoc(Pushes(front), last, h);
      assert Pushes(trace) == if Concerns(last) then Pushes(front) + [last] else Pushes(front);
    }
  }

  ghost predicate SamePushes(w: World, w': World) {
    |w'.conns| == |w.conns| && forall c :: 0 <= c < |w.conns| ==> Pushes(w'.conns[c].trace) == Pushes(w.conns[c].trace)
  }

  lemma RevokeSendsNoPush(w: World, c: nat)
    requires Wf(w) && c < |w.conns|
    ensures SamePushes(w, Revoke(w, c))
  {
    if !w.conns[c].ended {
      var conn := Send(w.conns[c].(revoked := true, holdsLease := false), LeaseRevoked).0;
      PushesSnoc(w.conns[c].trace, LeaseRevoked);
      assert Revoke(w, c).conns == w.conns[c := conn.(ended := true)];
    }
  }

  lemma {:induction false} BindSendsNoPush(w: World, r: Reconnect)
    requires Wf(w) && r.conn < |w.conns|
    ensures SamePushes(w, Bind(w, r))
    decreases r, 0
  {
    var w0 := w.(binds := w.binds + [r.conn]);
    if w0.bound.Some? {
      var incumbent := w0.bound.value;
      var w1 := UnbindInternal(w0);
      var w2 := if w1.conns[incumbent].ended then w1 else Reconnects(Revoke(w1, incumbent), r.inner);
      if !w1.conns[incumbent].ended {
        RevokeSendsNoPush(w1, incumbent);
        ReconnectsSendNoPush(Revoke(w1, incumbent), r.inner);
      }
      if w2.bound.Some? && !w2.conns[r.conn].ended {
        RevokeSendsNoPush(w2, r.conn);
        ReconnectsSendNoPush(Revoke(w2, r.conn), r.after);
      }
    }
  }

  lemma {:induction false} EstablishSendsNoPush(w: World, r: Reconnect)
    requires Wf(w)
    ensures SamePushes(w, Establish(w, r))
    decreases r, 1
  {
    if r.conn < |w.conns| && !w.conns[r.conn].ended && !w.conns[r.conn].greeted {
      BindSendsNoPush(w.(conns := w.conns[r.conn := w.conns[r.conn].(greeted := true)]), r);
    }
  }

  lemma {:induction false} ReconnectsSendNoPush(w: World, rs: seq<Reconnect>)
    requires Wf(w)
    ensures SamePushes(w, Reconnects(w, rs))
    decreases rs, 0
  {
    if rs != [] {
      EstablishSendsNoPush(w, rs[0]);
      ReconnectsSendNoPush(Establish(w, rs[0]), rs[1..]);
    }
  }

  /** Who holds a living store after a hello that was taken had not been established before. */
  lemma NewHolderIsNew(w: World, r: Reconnect, c: nat)
    requires Inv(w, Quiet) && Inv(Establish(w, r), Quiet) && Establish(w, r) != w && Establish(w, r).bound == Some(c)
    requires !w.destroyed
    ensures c < |w.conns| && !w.conns[c].established && w.bound != Some(c)
  {
    EstablishLater(w, r);
    assert ConnGoesOn(w.conns[c], Establish(w, r).conns[c]);
    assert ConnOk(w, c, Quiet);
    if w.bound.Some? { DisplacedHolderIsTold(w, r); }
  }

  lemma StepAccounts(w: World, e: Event, c: nat, h: nat)
    requires Inv(w, Quiet) && Entitled(w)
    ensures Accounts(w, e, Step(w, e), c, h)
  {
    var w' := Step(w, e);
    AgentRuns.StepKeeps(w, e);
    if e.Inbound? {
      if e.c < |w.conns| { ItemAccounts(w, e.c, e.item, c, h); } else { IdleAccounts(w, e, c, h); }
    } else if e.Settle? {
      SettleAccounts(w, e.i, c, h);
    } else if e.Backend? {
      InvFits(w);
      CallbackIsBooked(w, e.e);
      BookedAccounts(w, e, w', c, h);
    } else if e.Accept? {
      AcceptAccounts(w, c, h);
    } else {
      QuietAccounts(w, e, c, h);
    }
  }

  lemma IdleAccounts(w: World, e: Event, c: nat, h: nat)
    requires Inv(w, Quiet) && !Acks(w, e, c, h)
    ensures Accounts(w, e, w, c, h)
  {
    InvFits(w);
  }

  lemma QuietIsBooked(w: World, e: Event)
    requires Wf(w) && HandlesFit(w) && HolderSpeaks(w) && HandlesFit(Step(w, e)) && HolderSpeaks(Step(w, e))
    requires e.SetSink? || e.EndOfInput? || e.Parsed?
    ensures Booked(w, Step(w, e), {})
  {
    match e
    case EndOfInput(c) => EndIsBooked(w, c);
    case Parsed(id) => ParseIsBooked(w, id);
    case SetSink(c, sink) => SilentIsBooked(w, Step(w, e));
  }

  lemma ParseIsBooked(w: World, id: string)
    requires Wf(w) && HandlesFit(w) && HolderSpeaks(w)
    ensures Booked(w, Parse(w, id), {})
  {
    SilentIsBooked(w, Parse(w, id));
  }

  lemma EndIsBooked(w: World, c: nat)
    requires Wf(w) && HandlesFit(w) && (c < |w.conns| ==> HandlesFit(End(w, c)) && HolderSpeaks(End(w, c)))
    requires c >= |w.conns| ==> HolderSpeaks(w)
    ensures Booked(w, if c < |w.conns| then End(w, c) else w, {})
  {
    SilentIsBooked(w, if c < |w.conns| then End(w, c) else w);
  }

  /** Steps in which nothing is sent. */
  lemma QuietAccounts(w: World, e: Event, c: nat, h: nat)
    requires Inv(w, Quiet) && Inv(Step(w, e), Quiet) && (e.SetSink? || e.EndOfInput? || e.Parsed? || e.Shutdown?)
    ensures Accounts(w, e, Step(w, e), c, h)
  {
    if !e.Shutdown? {
      InvFits(w);
      InvFits(Step(w, e));
      QuietIsBooked(w, e);
      BookedAccounts(w, e, Step(w, e), c, h);
    } else {
      DestroyedAccounts(w, e, Step(w, e), c, h);
    }
  }

  lemma AcceptAccounts(w: World, c: nat, h: nat)
    requires Inv(w, Quiet)
    ensures Accounts(w, Accept, Step(w, Accept), c, h)
  {
  }

  lemma SettleAccounts(w: World, i: nat, c: nat, h: nat)
    requires Inv(w, Quiet)
    ensures Accounts(w, Settle(i), SettleAttach(w, i), c, h)
  {
    InvFits(w);
    SilentIsBooked(w, w);
    var w' := SettleAttach(w, i);
    if i < |w.attaches| && (w.attaches[i].barrier.Ready? || w.attaches[i].barrier.Refused?) {
      var a := w.attaches[i];
      var closed := w.(attaches := w.attaches[i := a.(barrier := Settled(None))]);
      SilentIsBooked(w, closed);
      if a.barrier.Refused? || a.id !in w.panes || w.panes[a.id].handle != a.handle {
        var reply := Failed(if a.barrier.Refused? then a.barrier.code else UnknownPane);
        AnswerIsBooked(closed, a.conn, a.request, reply);
        BookedTransitive(w, closed, w', {});
      } else if !w.conns[a.conn].ended {
        SettleReadyIsBooked(w, i);
      }
    }
    BookedAccounts(w, Settle(i), w', c, h);
  }

  lemma RepliedIsBooked(w: World, i: nat)
    requires Wf(w) && HandlesFit(w) && HolderSpeaks(w) && i < |w.attaches| && w.attaches[i].barrier.Ready?
    ensures Booked(w, Replied(w, i), {})
  {
    var a := w.attaches[i];
    var f := Response(a.request, Attached(a.barrier.snapshot));
    var conn := Send(w.conns[a.conn], f).0;
    var w0 := w.(conns := w.conns[a.conn := conn]);
    OneFrameIsBooked(w, a.conn, conn, f);
    SilentIsBooked(w0, Replied(w, i));
    BookedTransitive(w, w0, Replied(w, i), {});
  }

  lemma SettleReadyIsBooked(w: World, i: nat)
    requires Wf(w) && HandlesFit(w) && HolderSpeaks(w) && i < |w.attaches| && w.attaches[i].barrier.Ready?
    requires var a := w.attaches[i]; a.id in w.panes && w.panes[a.id].handle == a.handle && !w.conns[a.conn].ended
    ensures Booked(w, SettleAttach(w, i), {})
  {
    var a, w1 := w.attaches[i], Replied(w, i);
    RepliedIsBooked(w, i);
    ReleaseIsBooked(w1, a);
    assert SettleAttach(w, i) == Release(w1, a);
    BookedTransitive(w, w1, Release(w1, a), {});
  }

  lemma ItemAccounts(w: World, d: nat, item: Item, c: nat, h: nat)
    requires Inv(w, Quiet) && Entitled(w) && d < |w.conns|
    requires Inv(OnItem(w, d, item), Quiet)
    ensures Accounts(w, Inbound(d, item), OnItem(w, d, item), c, h)
  {
    var e, w', conn := Inbound(d, item), OnItem(w, d, item), w.conns[d];
    InvFits(w);
    InvFits(w');
    if conn.ended || conn.revoked || item.Fatal? || (!conn.established && !item.GoodHello?) {
      AgentDelivery.EndKeeps(w, d, Quiet, Quiet);
      InvFits(End(w, d));
      assert ConnOk(w, d, Quiet);
      EndAccounts(w, e, d, c, h);
    } else if !conn.established {
      HelloAccounts(w, e, Reconnect(d, item.nested, item.after), c, h);
    } else {
      SpeakerHolds(w, d);
      if !w.destroyed { SpokenAccounts(w, d, item, c, h); } else { DestroyedAccounts(w, e, w', c, h); }
    }
  }

  lemma DestroyedAccounts(w: World, e: Event, w': World, c: nat, h: nat)
    requires Inv(w', Quiet) && w'.destroyed
    ensures Accounts(w, e, w', c, h)
  {
  }

  /** What comes in on a connection that may not speak yet, or no longer, acknowledges nothing. */
  lemma EndAccounts(w: World, e: Event, d: nat, c: nat, h: nat)
    requires Inv(w, Quiet) && d < |w.conns| && HandlesFit(End(w, d)) && HolderSpeaks(End(w, d)) && !Acks(w, e, c, h)
    ensures Accounts(w, e, End(w, d), c, h) && Accounts(w, e, w, c, h)
  {
    InvFits(w);
    SilentIsBooked(w, w);
    SilentIsBooked(w, End(w, d));
    SameSlackAccounts(w, e, w, c, h);
    SameSlackAccounts(w, e, End(w, d), c, h);
  }

  lemma SameSlackAccounts(w: World, e: Event, w': World, c: nat, h: nat)
    requires HandlesFit(w) && Booked(w, w', {}) && !Acks(w, e, c, h) && w'.handles == w.handles
    ensures Accounts(w, e, w', c, h)
  {
  }

  lemma SpokenAccounts(w: World, d: nat, item: Item, c: nat, h: nat)
    requires Inv(w, Quiet) && d < |w.conns| && w.bound == Some(d) && !w.destroyed
    requires w.conns[d].established && !w.conns[d].ended && !w.conns[d].revoked && !item.Fatal?
    requires Inv(OnItem(w, d, item), Quiet)
    ensures Accounts(w, Inbound(d, item), OnItem(w, d, item), c, h)
  {
    InvFits(w);
    match item
    case Req(request) =>
      DispatchBooks(w, d, request);
      DispatchLater(w, d, request);
      ServedAccounts(w, Inbound(d, item), OnItem(w, d, item), c, h);
    case Ack(id, bytes) => AckAccounts(w, d, id, bytes, c, h);
    case WindowSize(size, pane) => WindowAccounts(w, d, size, pane, c, h);
    case _ =>
      SilentIsBooked(w, w);
      SameSlackAccounts(w, Inbound(d, item), w, c, h);
  }

  /** The gate takes the bytes off the pane's own account and leaves the others alone. */
  lemma AckedIsCounted(g: GateState, id: string, bytes: nat)
    ensures Unacked(OnAck(g, id, bytes).0, id) == Less(Unacked(g, id), bytes)
    ensures forall other :: other != id ==> Unacked(OnAck(g, id, bytes).0, other) == Unacked(g, other)
  {
  }

  lemma AckAccounts(w: World, d: nat, id: string, bytes: nat, c: nat, h: nat)
    requires Inv(w, Quiet) && w.bound == Some(d) && !w.destroyed
    ensures Accounts(w, Inbound(d, Ack(id, bytes)), Flow(w, OnAck(w.gate, id, bytes)), c, h)
  {
    InvFits(w);
    AckedIsCounted(w.gate, id, bytes);
  }

  lemma WindowCountsNothing(g: GateState, size: nat, pane: Option<string>)
    ensures forall id :: Unacked(OnWindow(g, size, pane).0, id) == Unacked(g, id)
  {
  }

  lemma WindowAccounts(w: World, d: nat, size: nat, pane: Option<string>, c: nat, h: nat)
    requires Inv(w, Quiet) && w.bound == Some(d) && !w.destroyed
    ensures Accounts(w, Inbound(d, WindowSize(size, pane)), Flow(w, OnWindow(w.gate, size, pane)), c, h)
  {
    InvFits(w);
    WindowCountsNothing(w.gate, size, pane);
  }

  // ---------------------------------------------------------------- over runs

  /** What `c` was sent about `h` over the run, less what it acknowledged while it held the store. */
  ghost function Outstanding(events: seq<Event>, c: nat, h: nat): nat {
    if events == [] then 0
    else
      var front, e := events[..|events| - 1], events[|events| - 1];
      var w, w' := After(front), After(events);
      if Acks(w, e, c, h) then Less(Outstanding(front, c, h), e.item.bytes)
      else Outstanding(front, c, h) + NewBytes(w, w', c, h)
  }

  function NewBytes(w: World, w': World, c: nat, h: nat): nat {
    if c < |w.conns| && c < |w'.conns| && Bytes(w.conns[c].trace, h) <= Bytes(w'.conns[c].trace, h) then
      Bytes(w'.conns[c].trace, h) - Bytes(w.conns[c].trace, h)
    else 0
  }

  lemma {:induction false} BytesGrow(trace: seq<Frame>, trace': seq<Frame>, h: nat)
    requires trace <= trace'
    ensures Bytes(trace, h) <= Bytes(trace', h)
    decreases |trace'|
  {
    if |trace| < |trace'| {
      assert trace <= trace'[..|trace'| - 1];
      BytesGrow(trace, trace'[..|trace'| - 1], h);
    } else {
      assert trace == trace';
    }
  }

  /** What is outstanding was sent. */
  lemma {:induction false} OutstandingWasSent(events: seq<Event>, c: nat, h: nat)
    ensures if c < |After(events).conns| then Outstanding(events, c, h) <= Bytes(After(events).conns[c].trace, h)
            else Outstanding(events, c, h) == 0
    decreases |events|
  {
    if events != [] {
      var front, e := events[..|events| - 1], events[|events| - 1];
      assert events == front + [e];
      AfterOneMore(front, e);
      StepLater(After(front), e);
      OutstandingWasSent(front, c, h);
      if c < |After(front).conns| {
        assert ConnGoesOn(After(front).conns[c], After(events).conns[c]);
        BytesGrow(After(front).conns[c].trace, After(events).conns[c].trace, h);
      }
    }
  }

  /**
   * Over every run, what the gate holds outstanding for a live pane of the connection that holds the
   * store is exactly the data that connection was sent about it, in its own trace, less what it has
   * acknowledged, never below zero.
   */
  lemma {:induction false} GateKeepsTheBooks(events: seq<Event>, c: nat, h: nat)
    requires After(events).bound == Some(c) && Live(After(events), h)
    ensures Unacked(After(events).gate, After(events).handles[h].id) == Outstanding(events, c, h)
    decreases |events|
  {
    if events != [] {
      var front, e := events[..|events| - 1], events[|events| - 1];
      assert events == front + [e];
      AfterOneMore(front, e);
      var w, w' := After(front), After(events);
      EveryRun(front);
      EveryRun(events);
      RunEntitled(Init, front);
      StepAccounts(w, e, c, h);
      if w.bound == Some(c) && Live(w, h) {
        GateKeepsTheBooks(front, c, h);
        OldAccount(front, e, c, h);
      } else {
        FreshAccount(front, e, c, h);
      }
    }
  }

  lemma FreshAccount(front: seq<Event>, e: Event, c: nat, h: nat)
    requires var w, w' := After(front), After(front + [e]);
      && Inv(w, Quiet) && Entitled(w) && Inv(w', Quiet) && w' == Step(w, e) && Accounts(w, e, w', c, h)
      && w'.bound == Some(c) && Live(w', h) && !(w.bound == Some(c) && Live(w, h))
    ensures var w' := After(front + [e]);
      Unacked(w'.gate, w'.handles[h].id) == Outstanding(front + [e], c, h)
  {
    var w, w' := After(front), After(front + [e]);
    StepLater(w, e);
    StepTellsAll(w, e);
    FreshHeardNothing(w, e, w', c, h);
    OutstandingWasSent(front, c, h);
    assert (front + [e])[..|front|] == front;
  }

  lemma OldAccount(front: seq<Event>, e: Event, c: nat, h: nat)
    requires var w, w' := After(front), After(front + [e]);
      && w.bound == Some(c) == w'.bound && c < |w.conns| && c < |w'.conns| && Live(w, h) && Live(w', h)
      && w' == Step(w, e) && Accounts(w, e, w', c, h)
      && Unacked(w.gate, w.handles[h].id) == Outstanding(front, c, h)
    ensures var w' := After(front + [e]);
      Unacked(w'.gate, w'.handles[h].id) == Outstanding(front + [e], c, h)
  {
    var w, w' := After(front), After(front + [e]);
    StepLater(w, e);
    assert ConnGoesOn(w.conns[c], w'.conns[c]) && HandleGoesOn(w.handles[h], w'.handles[h]);
    BytesGrow(w.conns[c].trace, w'.conns[c].trace, h);
    assert (front + [e])[..|front|] == front;
  }

  /** A pane that is new, or a holder that is new: nothing about the one was sent to the other before. */
  lemma FreshHeardNothing(w: World, e: Event, w': World, c: nat, h: nat)
    requires Inv(w, Quiet) && Entitled(w) && Inv(w', Quiet) && w' == Step(w, e) && Later(w, w') && NoneRevived(w, w')
    requires w'.bound == Some(c) && Live(w', h) && !(w.bound == Some(c) && Live(w, h))
    ensures c < |w.conns| && Bytes(w.conns[c].trace, h) == 0
  {
    HolderWasThere(w, e, c);
    assert ConnOk(w, c, Quiet);
    if w.bound == Some(c) {
      NoBytes(w.conns[c].trace, h);
    } else {
      assert ConnGoesOn(w.conns[c], w'.conns[c]);
      if w.destroyed { DestroyedStays(w, e); }
      UnestablishedHeardNothing(w, c, h);
    }
  }

  lemma HolderWasThere(w: World, e: Event, c: nat)
    requires Wf(w) && Step(w, e).bound == Some(c)
    ensures c < |w.conns|
  {
  }

  lemma DestroyedStays(w: World, e: Event)
    requires Inv(w, Quiet) && Inv(Step(w, e), Quiet) && w.destroyed
    ensures Step(w, e).panes == map[]
  {
  }
}
