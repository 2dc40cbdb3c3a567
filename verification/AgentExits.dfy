/** A pane's exit: the last bytes, the last status, the exit frame, then silence. */
module AgentExits {
  import opened Chunks
  import opened FlowControl
  import opened Replay
  import opened AgentWorld
  import opened AgentInvariant
  import opened AgentSends
  import opened AgentDelivery
  import opened AgentPanes

  /** The mode of an exit in progress: `rest` is still to be flushed. */
  function Leaving(m: Mode, h: nat, rest: seq<string>): Mode {
    m.(fh := h, dying := true, rest := rest)
  }

  function Emptied(w: World, id: string): World
    requires id in w.panes
  {
    w.(panes := w.panes[id := w.panes[id].(held := [])])
  }

  // ---------------------------------------------------------------- taking the held bytes out

  lemma EmptiedKeepsAttach(w: World, id: string, m: Mode, m': Mode, i: nat)
    requires Wf(w) && id in w.panes && AtRest(m) && i < |w.attaches| && AttachOk(w, i, m)
    requires m' == Leaving(m, w.panes[id].handle, w.panes[id].held)
    ensures AttachOk(Emptied(w, id), i, m')
  {
    var w', a := Emptied(w, id), w.attaches[i];
    WindowsSame(w, w');
    if a.barrier.Settled? && a.barrier.answer.Some? { AnsweredStays(w, w', a, a.barrier.answer.value); }
  }

  lemma EmptiedKeepsConns(w: World, id: string, m: Mode, m': Mode)
    requires Wf(w) && id in w.panes && ConnsOk(w, m) && m'.x == m.x && m'.sc == m.sc && m'.sk == m.sk
    ensures ConnsOk(Emptied(w, id), m')
  {
    var w' := Emptied(w, id);
    PendingSame(w, w');
    forall c | 0 <= c < |w'.conns| ensures ConnOk(w', c, m') {
      assert ConnOk(w, c, m);
      assert FramesOk(w', c);
      assert AnswersOk(w', c, m');
    }
  }

  lemma EmptiedKeeps(w: World, id: string, m: Mode, m': Mode)
    requires Inv(w, m) && id in w.panes && AtRest(m)
    requires m' == Leaving(m, w.panes[id].handle, w.panes[id].held)
    ensures Inv(Emptied(w, id), m')
  {
    var w', h := Emptied(w, id), w.panes[id].handle;
    EmptiedKeepsConns(w, id, m, m');
    WindowsSame(w, w');
    assert PaneOk(w, id, m);
    forall other | other in w'.panes ensures PaneOk(w', other, m') {
      assert PaneOk(w, other, m);
      FeedStays(w, w', w.panes[other], w'.panes[other]);
    }
    forall k | 0 <= k < |w'.handles| ensures HandleOk(w', k, m') { assert HandleOk(w, k, m); }
    forall i | 0 <= i < |w'.attaches| ensures AttachOk(w', i, m') {
      assert AttachOk(w, i, m);
      EmptiedKeepsAttach(w, id, m, m', i);
    }
    forall i, j | 0 <= i < j < |w'.attaches| ensures Apart(w', i, j) { assert Apart(w, i, j); }
    forall n | 0 <= n < |w'.ledger| ensures SubOk(w', n, m') {
      assert SubOk(w, n, m);
      EmptiedKeepsSub(w, id, m, m', n);
    }
  }

  lemma EmptiedKeepsSub(w: World, id: string, m: Mode, m': Mode, n: nat)
    requires Wf(w) && id in w.panes && AtRest(m) && PaneOk(w, id, m) && n < |w.ledger| && SubOk(w, n, m)
    requires m' == Leaving(m, w.panes[id].handle, w.panes[id].held)
    ensures SubOk(Emptied(w, id), n, m')
  {
    var w', e := Emptied(w, id), w.ledger[n];
    if Live(w, e.handle) { assert Owed(w', e.handle, m') == Owed(w, e.handle, m); }
  }

  /** A dying pane nobody listens to owes nothing. */
  lemma DyingOwesNothing(w: World, id: string, m: Mode, m': Mode)
    requires Inv(w, m) && m.dying && m' == m.(rest := []) && id in w.panes && m.fh == w.panes[id].handle
    requires w.bound.None? || !w.panes[id].subscribed
    ensures Inv(w, m')
  {
    forall d | 0 <= d < |w.conns| ensures ConnOk(w, d, m') { assert ConnOk(w, d, m); }
    forall other | other in w.panes ensures PaneOk(w, other, m') { assert PaneOk(w, other, m); }
    forall h | 0 <= h < |w.handles| ensures HandleOk(w, h, m') { assert HandleOk(w, h, m); }
    forall i | 0 <= i < |w.attaches| ensures AttachOk(w, i, m') { assert AttachOk(w, i, m); }
    assert PaneOk(w, id, m);
    forall n | 0 <= n < |w.ledger| ensures SubOk(w, n, m') { assert SubOk(w, n, m); }
  }

  lemma FlushHeldKeeps(w: World, id: string, m: Mode)
    requires Inv(w, m) && id in w.panes && AtRest(m)
    ensures Inv(FlushHeld(w, id), Leaving(m, w.panes[id].handle, []))
    ensures FlushHeld(w, id).panes[id].held == []
  {
    var rec := w.panes[id];
    var m1 := Leaving(m, rec.handle, rec.held);
    assert PaneOk(w, id, m);
    EmptiedKeeps(w, id, m, m1);
    if !w.destroyed && w.bound.Some? && rec.subscribed {
      DeliverAllKeeps(Emptied(w, id), id, rec.handle, rec.held, m1);
    } else {
      DyingOwesNothing(Emptied(w, id), id, m1, Leaving(m, rec.handle, []));
    }
  }

  lemma PruneKeeps(w: World, id: string, m: Mode)
    requires Inv(w, m) && id in w.panes && m.dying && m.fh == w.panes[id].handle
    ensures Inv(w.(gate := Prune(w.gate, id)), m)
  {
    var w' := w.(gate := Prune(w.gate, id));
    StoreTouched(w, w', m);
    forall other | other in w'.panes ensures PaneOk(w', other, m) { PruneKeepsPane(w, id, m, other); }
    PrunedGateOk(w, id);
  }

  lemma PrunedGateOk(w: World, id: string)
    requires GateOk(w)
    ensures GateOk(w.(gate := Prune(w.gate, id)))
  {
    assert Prune(NewGate, id) == NewGate;
  }

  lemma PruneKeepsPane(w: World, id: string, m: Mode, other: string)
    requires Inv(w, m) && id in w.panes && m.dying && m.fh == w.panes[id].handle && other in w.panes
    ensures PaneOk(w.(gate := Prune(w.gate, id)), other, m)
  {
    assert PaneOk(w, other, m) && PaneOk(w, id, m);
    PaneTouched(w, w.(gate := Prune(w.gate, id)), m, other);
  }

  // ---------------------------------------------------------------- leaving the store

  lemma LiveAfterForget(w: World, id: string, m: Mode)
    requires Wf(w) && id in w.panes && PanesOk(w, m)
    ensures var w' := Forget(w, id);
      forall h: nat :: Live(w', h) == (Live(w, h) && h != w.panes[id].handle)
  {
    assert PaneOk(w, id, m);
  }

  lemma ForgetKeepsPane(w: World, id: string, m: Mode, other: string)
    requires Wf(w) && id in w.panes && PanesOk(w, m) && other in w.panes && other != id
    ensures PaneOk(Forget(w, id), other, m)
  {
    var w' := Forget(w, id);
    assert PaneOk(w, id, m);
    assert PaneOk(w, other, m);
    LiveAfterForget(w, id, m);
    var rec := w.panes[other];
    if rec.holds == 1 {
      var i: nat :| HoldWindow(w, i) && w.attaches[i].handle == rec.handle;
      assert HoldWindow(w', i);
    }
    forall waiter | waiter in rec.replay.waiters ensures WaiterOk(w', rec, waiter) {
      assert WaiterOk(w, rec, waiter);
      forall mine | mine in w.panes[id].replay.waiters ensures mine.token != waiter.token {
        assert WaiterOk(w, w.panes[id], mine);
      }
    }
  }

  lemma ForgetKeepsAttach(w: World, id: string, m: Mode, i: nat)
    requires Wf(w) && id in w.panes && PanesOk(w, m) && i < |w.attaches| && AttachOk(w, i, m)
    ensures AttachOk(Forget(w, id), i, m)
  {
    var w', a := Forget(w, id), w.attaches[i];
    LiveAfterForget(w, id, m);
    var a' := w'.attaches[i];
    if a' != a {
      var waiter :| waiter in w.panes[id].replay.waiters && waiter.token == i;
      assert PaneOk(w, id, m);
      assert WaiterOk(w, w.panes[id], waiter);
    }
    if a.barrier.Settled? && a.barrier.answer.Some? { AnsweredStays(w, w', a, a.barrier.answer.value); }
  }

  lemma ForgetKeepsConns(w: World, id: string, m: Mode)
    requires Wf(w) && id in w.panes && PanesOk(w, m) && ConnsOk(w, m)
    ensures ConnsOk(Forget(w, id), m)
  {
    var w' := Forget(w, id);
    LiveAfterForget(w, id, m);
    forall i: nat, c: nat, k: nat ensures Pending(w', i, c, k) == Pending(w, i, c, k) {}
    forall c | 0 <= c < |w'.conns| ensures ConnOk(w', c, m) {
      assert ConnOk(w, c, m);
      assert FramesOk(w', c);
      assert AnswersOk(w', c, m);
    }
  }

  lemma ForgetKeepsApart(w: World, id: string, m: Mode, i: nat, j: nat)
    requires Wf(w) && id in w.panes && PanesOk(w, m) && AllApart(w) && i < j < |w.attaches|
    ensures Apart(Forget(w, id), i, j)
  {
    LiveAfterForget(w, id, m);
    assert Apart(w, i, j);
    var w' := Forget(w, id);
    assert HoldWindow(w', i) ==> HoldWindow(w, i);
    assert HoldWindow(w', j) ==> HoldWindow(w, j);
  }

  lemma ForgetKeepsSub(w: World, id: string, m: Mode, n: nat)
    requires Wf(w) && id in w.panes && PanesOk(w, m) && n < |w.ledger| && SubOk(w, n, m)
    requires w.panes[id].held == [] && m.rest == []
    ensures SubOk(Forget(w, id), n, m)
  {
    var w' := Forget(w, id);
    LiveAfterForget(w, id, m);
    assert PaneOk(w, id, m);
    var e := w.ledger[n];
    if e.handle == w.panes[id].handle && w.bound == Some(e.conn) {
      assert Owed(w, e.handle, m) == [];
    }
  }

  lemma ForgetKeeps(w: World, id: string, m: Mode)
    requires Inv(w, m) && id in w.panes && m.dying && m.fh == w.panes[id].handle
    requires w.panes[id].held == [] && m.rest == [] && Prune(w.gate, id) == w.gate
    ensures Inv(Forget(w, id), m)
  {
    var w' := Forget(w, id);
    LiveAfterForget(w, id, m);
    ForgetKeepsConns(w, id, m);
    forall other | other in w'.panes ensures PaneOk(w', other, m) { ForgetKeepsPane(w, id, m, other); }
    forall h | 0 <= h < |w'.handles| ensures HandleOk(w', h, m) { assert HandleOk(w, h, m); }
    forall i | 0 <= i < |w'.attaches| ensures AttachOk(w', i, m) {
      assert AttachOk(w, i, m);
      ForgetKeepsAttach(w, id, m, i);
    }
    forall i, j | 0 <= i < j < |w'.attaches| ensures Apart(w', i, j) { ForgetKeepsApart(w, id, m, i, j); }
    forall n | 0 <= n < |w'.ledger| ensures SubOk(w', n, m) {
      assert SubOk(w, n, m);
      ForgetKeepsSub(w, id, m, n);
    }
    assert id !in w.gate.panes by { assert id !in Prune(w.gate, id).panes; }
  }

  // ---------------------------------------------------------------- the exit frame

  /** Every current subscriber of handle `h` has its exit frame. */
  ghost predicate Told(w: World, h: nat) {
    forall n :: 0 <= n < |w.ledger| && w.ledger[n].handle == h && w.bound == Some(w.ledger[n].conn) ==>
      w.ledger[n].conn < |w.conns| && HasExit(w.conns[w.ledger[n].conn].trace, w.ledger[n].at, h)
  }

  lemma DeliverGate(w: World, f: Frame)
    requires Wf(w)
    ensures Deliver(w, f).gate == w.gate || Deliver(w, f).gate == NewGate
  {
  }

  lemma RouteStatusOnPane(w: World, id: string)
    requires Wf(w) && id in w.panes && w.panes[id].held == [] && Prune(w.gate, id) == w.gate
    ensures RouteStatus(w, id).panes[id].held == []
    ensures Prune(RouteStatus(w, id).gate, id) == RouteStatus(w, id).gate
  {
    DeliverOnPanes(w, Status(id, w.panes[id].handle));
    DeliverGate(w, Status(id, w.panes[id].handle));
    assert Prune(NewGate, id) == NewGate;
  }

  lemma ExitFrameIsTold(w: World, f: Frame, m: Mode)
    requires Wf(w) && LedgerOk(w, m) && w.bound.Some? && f.Exit?
    ensures Told(Sent(w, f), f.handle)
  {
    var w' := Sent(w, f);
    var trace := w'.conns[w.bound.value].trace;
    assert trace[|trace| - 1] == f;
    forall n | 0 <= n < |w'.ledger| && w'.ledger[n].handle == f.handle && w'.bound == Some(w'.ledger[n].conn)
      ensures HasExit(trace, w'.ledger[n].at, f.handle)
    {
      assert SubOk(w, n, m);
    }
  }

  lemma ExitFrameKeeps(w: World, id: string, h: nat, code: int, subscribed: bool, m: Mode)
    requires Inv(w, m) && m.x == -1 && Dying(m, h) && h < |w.handles| && !Live(w, h) && NoExitYet(w, h)
    requires w.handles[h].id == id && (!subscribed ==> Told(w, h))
    ensures var w' := if w.bound.Some? && subscribed then Deliver(w, Exit(id, h, code)) else w;
      Inv(w', m) && Told(w', h) && !Live(w', h)
  {
    if w.bound.Some? && subscribed {
      ExitFrameGoesOut(w, Exit(id, h, code), m);
    }
  }

  lemma ExitFrameGoesOut(w: World, f: Frame, m: Mode)
    requires Inv(w, m) && w.bound.Some? && f.Exit? && MaySend(w, f, m, m)
    ensures Inv(Deliver(w, f), m) && Told(Deliver(w, f), f.handle) && !Live(Deliver(w, f), f.handle)
  {
    DeliverKeeps(w, f, m, m);
    if Deliver(w, f).bound.Some? {
      assert Deliver(w, f) == Sent(w, f);
      ExitFrameIsTold(w, f, m);
    }
  }

  /** Nobody is subscribed to a pane whose record is unsubscribed. */
  lemma UnsubscribedIsTold(w: World, id: string, m: Mode)
    requires Inv(w, m) && id in w.panes && !w.panes[id].subscribed
    ensures Told(Forget(w, id), w.panes[id].handle)
  {
    assert PaneOk(w, id, m);
    forall n | 0 <= n < |w.ledger| && w.ledger[n].handle == w.panes[id].handle
      ensures w.bound != Some(w.ledger[n].conn)
    {
      assert SubOk(w, n, m);
    }
  }

  lemma PaneExitedKeeps(w: World, id: string, code: int, finalStatus: bool, m: Mode)
    requires Inv(w, m) && id in w.panes && AtRest(m)
    ensures var h, w' := w.panes[id].handle, PaneExited(w, id, code, finalStatus);
      Inv(w', Leaving(m, h, [])) && Told(w', h) && !Live(w', h)
  {
    var h := w.panes[id].handle;
    var d := Leaving(m, h, []);
    LastBytesKeep(w, id, m);
    LastStatusKeeps(LastBytes(w, id), id, finalStatus, d);
    FarewellKeeps(LastStatus(LastBytes(w, id), id, finalStatus), id, code, d);
  }

  /** The first part of an exit: what was held goes out, the gate forgets the pane. */
  function LastBytes(w: World, id: string): (w': World)
    requires Wf(w) && id in w.panes
    ensures Wf(w') && id in w'.panes
  {
    var w1 := FlushHeld(w, id);
    w1.(gate := Prune(w1.gate, id))
  }

  /** The second: the status, if the exit changed it. */
  function LastStatus(w: World, id: string, finalStatus: bool): (w': World)
    requires Wf(w) && id in w.panes
    ensures Wf(w') && id in w'.panes && w'.panes[id].handle == w.panes[id].handle
  {
    if finalStatus then RouteStatus(w, id) else w
  }

  lemma LastBytesKeep(w: World, id: string, m: Mode)
    requires Inv(w, m) && id in w.panes && AtRest(m)
    ensures var w', d := LastBytes(w, id), Leaving(m, w.panes[id].handle, []);
      && Inv(w', d) && w'.panes[id].handle == w.panes[id].handle
      && w'.panes[id].held == [] && Prune(w'.gate, id) == w'.gate
  {
    var d := Leaving(m, w.panes[id].handle, []);
    FlushHeldKeeps(w, id, m);
    PruneKeeps(FlushHeld(w, id), id, d);
  }

  lemma LastStatusKeeps(w: World, id: string, finalStatus: bool, d: Mode)
    requires Inv(w, d) && id in w.panes && d.x == -1 && Dying(d, w.panes[id].handle) && d.rest == []
    requires w.panes[id].held == [] && Prune(w.gate, id) == w.gate
    ensures var w' := LastStatus(w, id, finalStatus);
      Inv(w', d) && w'.panes[id].held == [] && Prune(w'.gate, id) == w'.gate
  {
    if finalStatus {
      RouteStatusKeeps(w, id, d);
      RouteStatusOnPane(w, id);
    }
  }

  /** The third: the pane leaves the store, and whoever listens gets the exit frame. */
  lemma FarewellKeeps(w: World, id: string, code: int, d: Mode)
    requires Inv(w, d) && id in w.panes && d.x == -1 && Dying(d, w.panes[id].handle) && d.rest == []
    requires w.panes[id].held == [] && Prune(w.gate, id) == w.gate
    ensures var h, w' := w.panes[id].handle, Farewell(w, id, code);
      Inv(w', d) && Told(w', h) && !Live(w', h)
  {
    var h := w.panes[id].handle;
    assert PaneOk(w, id, d);
    LiveHasNoExit(w, h, d);
    ForgetKeeps(w, id, d);
    LiveAfterForget(w, id, d);
    if !w.panes[id].subscribed { UnsubscribedIsTold(w, id, d); }
    ExitFrameKeeps(Forget(w, id), id, h, code, w.panes[id].subscribed, d);
  }

  function Departed(w: World, h: nat, state: HandleState): World
    requires h < |w.handles|
  {
    w.(handles := w.handles[h := w.handles[h].(state := state)])
  }

  lemma DepartedKeepsAttach(w: World, h: nat, state: HandleState, m: Mode, m': Mode, i: nat)
    requires Wf(w) && h < |w.handles| && !Live(w, h) && Dying(m, h) && m' == m.(fh := -1, dying := false)
    requires i < |w.attaches| && AttachOk(w, i, m)
    ensures AttachOk(Departed(w, h, state), i, m')
  {
    var w', a := Departed(w, h, state), w.attaches[i];
    WindowsSame(w, w');
    if a.barrier.Settled? && a.barrier.answer.Some? { AnsweredStays(w, w', a, a.barrier.answer.value); }
  }

  lemma DepartedKeeps(w: World, h: nat, state: HandleState, m: Mode, m': Mode)
    requires Inv(w, m) && h < |w.handles| && !Live(w, h) && Dying(m, h) && m.rest == [] && !state.Running?
    requires state.Gone? ==> Told(w, h)
    requires m' == m.(fh := -1, dying := false)
    ensures Inv(Departed(w, h, state), m')
  {
    var w' := Departed(w, h, state);
    WindowsSame(w, w');
    PendingSame(w, w');
    forall c | 0 <= c < |w'.conns| ensures ConnOk(w', c, m') {
      assert ConnOk(w, c, m);
      assert FramesOk(w', c);
      assert AnswersOk(w', c, m');
    }
    forall id | id in w'.panes ensures PaneOk(w', id, m') {
      assert PaneOk(w, id, m);
      FeedStays(w, w', w.panes[id], w'.panes[id]);
    }
    forall k | 0 <= k < |w'.handles| ensures HandleOk(w', k, m') { assert HandleOk(w, k, m); }
    forall i | 0 <= i < |w'.attaches| ensures AttachOk(w', i, m') {
      assert AttachOk(w, i, m);
      DepartedKeepsAttach(w, h, state, m, m', i);
    }
    forall i, j | 0 <= i < j < |w'.attaches| ensures Apart(w', i, j) { assert Apart(w, i, j); }
    forall n | 0 <= n < |w'.ledger| ensures SubOk(w', n, m') { assert SubOk(w, n, m); }
  }

  /** A handle that already stopped, or whose store is gone, exits without a trace. */
  lemma OnExitKeeps(w: World, h: nat, code: int, finalStatus: bool, m: Mode)
    requires Inv(w, m) && AtRest(m)
    ensures Inv(OnExit(w, h, code, finalStatus), m)
  {
    if h < |w.handles| && w.handles[h].state.Running? {
      assert HandleOk(w, h, m);
      var id := w.handles[h].id;
      var d := Leaving(m, h, []);
      if id in w.panes {
        PaneExitedKeeps(w, id, code, finalStatus, m);
        DepartedKeeps(PaneExited(w, id, code, finalStatus), h, Gone(code), d, m);
      } else {
        StartLeaving(w, h, m, d);
        DepartedKeeps(w, h, Gone(code), d, m);
      }
    }
  }

  lemma StartLeaving(w: World, h: nat, m: Mode, d: Mode)
    requires Inv(w, m) && AtRest(m) && w.destroyed && d == Leaving(m, h, [])
    ensures Inv(w, d) && Told(w, h)
  {
    forall c | 0 <= c < |w.conns| ensures ConnOk(w, c, d) { assert ConnOk(w, c, m); }
    forall k | 0 <= k < |w.handles| ensures HandleOk(w, k, d) { assert HandleOk(w, k, m); }
    forall i | 0 <= i < |w.attaches| ensures AttachOk(w, i, d) { assert AttachOk(w, i, m); }
    forall n | 0 <= n < |w.ledger| ensures SubOk(w, n, d) { assert SubOk(w, n, m); }
    forall n | 0 <= n < |w.ledger| ensures w.bound != Some(w.ledger[n].conn) { assert SubOk(w, n, m); }
  }

  lemma CallbackKeeps(w: World, e: HandleEvent, m: Mode)
    requires Inv(w, m) && AtRest(m)
    ensures Inv(Callback(w, e), m)
  {
    match e
    case Output(h, text, replayFails) => OnDataKeeps(w, h, text, replayFails, m);
    case StatusChange(h) => if Live(w, h) { RouteStatusKeeps(w, w.handles[h].id, m); }
    case Exited(h, code, finalStatus) => OnExitKeeps(w, h, code, finalStatus, m);
  }

  lemma {:induction false} CallbacksKeep(w: World, events: seq<HandleEvent>, m: Mode)
    requires Inv(w, m) && AtRest(m)
    ensures Inv(Callbacks(w, events), m)
    decreases |events|
  {
    if events != [] {
      CallbackKeeps(w, events[0], m);
      CallbacksKeep(Callback(w, events[0]), events[1..], m);
    }
  }
}
