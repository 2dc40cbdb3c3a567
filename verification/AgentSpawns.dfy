/** Spawning, adopting and driving panes keep the invariant. */
module AgentSpawns {
  import opened Chunks
  import opened FlowControl
  import opened Replay
  import opened AgentWorld
  import opened AgentInvariant
  import opened AgentSends
  import opened AgentDelivery
  import opened AgentPanes
  import opened AgentExits

  // ---------------------------------------------------------------- a fresh pane

  lemma LiveAfterRegister(w: World, c: nat, id: string)
    requires Wf(w) && c < |w.conns| && id !in w.panes
    ensures var w' := Register(w, c, id);
      forall h: nat :: Live(w', h) == (Live(w, h) || h == |w.handles|)
  {
  }

  lemma RegisterKeepsConns(w: World, c: nat, id: string, m: Mode)
    requires Inv(w, m) && c < |w.conns| && id !in w.panes
    ensures ConnsOk(Register(w, c, id), m)
  {
    var w' := Register(w, c, id);
    LiveAfterRegister(w, c, id);
    PendingSame(w, w');
    forall d | 0 <= d < |w'.conns| ensures ConnOk(w', d, m) {
      assert ConnOk(w, d, m);
      assert FramesOk(w', d);
      assert AnswersOk(w', d, m);
    }
  }

  lemma RegisterKeepsPane(w: World, c: nat, id: string, m: Mode, other: string)
    requires Inv(w, m) && c < |w.conns| && id !in w.panes && w.bound.Some? && other in Register(w, c, id).panes
    ensures PaneOk(Register(w, c, id), other, m)
  {
    var w' := Register(w, c, id);
    LiveAfterRegister(w, c, id);
    if other != id {
      assert PaneOk(w, other, m);
      var rec := w.panes[other];
      if rec.holds == 1 {
        var i: nat :| HoldWindow(w, i) && w.attaches[i].handle == rec.handle;
        assert HoldWindow(w', i);
      }
      FeedStays(w, w', rec, rec);
    }
  }

  lemma RegisterKeepsAttach(w: World, c: nat, id: string, m: Mode, i: nat)
    requires Inv(w, m) && c < |w.conns| && id !in w.panes && i < |w.attaches|
    ensures AttachOk(Register(w, c, id), i, m)
  {
    var w', a := Register(w, c, id), w.attaches[i];
    assert AttachOk(w, i, m);
    LiveAfterRegister(w, c, id);
    if a.barrier.Settled? && a.barrier.answer.Some? { AnsweredStays(w, w', a, a.barrier.answer.value); }
  }

  lemma RegisterKeepsApart(w: World, c: nat, id: string, m: Mode, i: nat, j: nat)
    requires Inv(w, m) && c < |w.conns| && id !in w.panes && i < j < |w.attaches|
    ensures Apart(Register(w, c, id), i, j)
  {
    LiveAfterRegister(w, c, id);
    assert Apart(w, i, j) && AttachOk(w, i, m) && AttachOk(w, j, m);
  }

  lemma RegisterKeeps(w: World, c: nat, id: string, m: Mode)
    requires Inv(w, m) && AtRest(m) && c < |w.conns| && id !in w.panes && w.bound == Some(c) && !w.destroyed
    ensures Inv(Register(w, c, id), m)
  {
    var w' := Register(w, c, id);
    LiveAfterRegister(w, c, id);
    RegisterKeepsConns(w, c, id, m);
    forall other | other in w'.panes ensures PaneOk(w', other, m) { RegisterKeepsPane(w, c, id, m, other); }
    forall h | 0 <= h < |w'.handles| ensures HandleOk(w', h, m) { if h < |w.handles| { assert HandleOk(w, h, m); } }
    forall i | 0 <= i < |w'.attaches| ensures AttachOk(w', i, m) { RegisterKeepsAttach(w, c, id, m, i); }
    forall i, j | 0 <= i < j < |w'.attaches| ensures Apart(w', i, j) { RegisterKeepsApart(w, c, id, m, i, j); }
    assert ConnOk(w, c, m);
    forall n | 0 <= n < |w'.ledger| ensures SubOk(w', n, m) {
      if n < |w.ledger| {
        assert SubOk(w, n, m);
        var e := w.ledger[n];
        if Live(w, e.handle) { assert Owed(w', e.handle, m) == Owed(w, e.handle, m); }
      }
    }
  }

  lemma UnregisterKeeps(w: World, id: string, h: nat, m: Mode)
    requires Inv(w, m) && AtRest(m) && id in w.panes && w.panes[id].handle == h
    requires w.panes[id].held == [] && Prune(w.gate, id) == w.gate
    ensures Inv(Unregister(w, id, h), m)
  {
    var d := Leaving(m, h, []);
    assert PaneOk(w, id, m);
    EmptiedKeeps(w, id, m, d);
    assert Emptied(w, id) == w;
    ForgetKeeps(w, id, d);
    LiveAfterForget(w, id, d);
    DepartedKeeps(Forget(w, id), h, NeverRan, d, m);
  }

  // ---------------------------------------------------------------- adopting a live pane

  lemma SubscribedKeepsConns(w: World, c: nat, id: string, m: Mode)
    requires Inv(w, m) && c < |w.conns| && id in w.panes
    ensures ConnsOk(Subscribed(w, c, id), m)
  {
    var w' := Subscribed(w, c, id);
    PendingSame(w, w');
    forall d | 0 <= d < |w'.conns| ensures ConnOk(w', d, m) {
      assert ConnOk(w, d, m);
      assert FramesOk(w', d);
      assert AnswersOk(w', d, m);
    }
  }

  lemma SubscribedKeepsAttach(w: World, c: nat, id: string, m: Mode, i: nat)
    requires Inv(w, m) && c < |w.conns| && id in w.panes && i < |w.attaches|
    ensures AttachOk(Subscribed(w, c, id), i, m)
  {
    var w', a := Subscribed(w, c, id), w.attaches[i];
    assert AttachOk(w, i, m);
    WindowsSame(w, w');
    if a.barrier.Settled? && a.barrier.answer.Some? { AnsweredStays(w, w', a, a.barrier.answer.value); }
  }

  lemma SubscribedKeepsPane(w: World, c: nat, id: string, m: Mode, other: string)
    requires Inv(w, m) && c < |w.conns| && id in w.panes && w.bound.Some? && other in w.panes
    ensures PaneOk(Subscribed(w, c, id), other, m)
  {
    var w' := Subscribed(w, c, id);
    WindowsSame(w, w');
    assert PaneOk(w, other, m);
    FeedStays(w, w', w.panes[other], w'.panes[other]);
  }

  lemma SubscribedKeepsOldSub(w: World, c: nat, id: string, m: Mode, n: nat)
    requires Inv(w, m) && c < |w.conns| && id in w.panes && n < |w.ledger|
    ensures SubOk(Subscribed(w, c, id), n, m)
  {
    assert SubOk(w, n, m);
    WindowsSame(w, Subscribed(w, c, id));
  }

  /** The new entry owes nothing yet: the pane held nothing, since it was not subscribed. */
  lemma SubscribedIsEven(w: World, c: nat, id: string, m: Mode)
    requires Inv(w, m) && AtRest(m) && c < |w.conns| && id in w.panes && w.bound == Some(c) && !w.panes[id].subscribed
    ensures SubOk(Subscribed(w, c, id), |w.ledger|, m)
  {
    WindowsSame(w, Subscribed(w, c, id));
    assert PaneOk(w, id, m) && ConnOk(w, c, m);
  }

  lemma SubscribedKeepsRest(w: World, c: nat, id: string, m: Mode)
    requires Inv(w, m) && c < |w.conns| && id in w.panes
    ensures HandlesOk(Subscribed(w, c, id), m) && AllApart(Subscribed(w, c, id))
  {
    var w' := Subscribed(w, c, id);
    WindowsSame(w, w');
    forall h | 0 <= h < |w'.handles| ensures HandleOk(w', h, m) { assert HandleOk(w, h, m); }
    forall i, j | 0 <= i < j < |w'.attaches| ensures Apart(w', i, j) { assert Apart(w, i, j); }
  }

  lemma SubscribedKeeps(w: World, c: nat, id: string, m: Mode)
    requires Inv(w, m) && AtRest(m) && c < |w.conns| && id in w.panes && w.bound == Some(c)
    ensures Inv(Subscribed(w, c, id), m)
  {
    if !w.panes[id].subscribed {
      var w' := Subscribed(w, c, id);
      SubscribedKeepsConns(w, c, id, m);
      SubscribedKeepsRest(w, c, id, m);
      forall other | other in w'.panes ensures PaneOk(w', other, m) { SubscribedKeepsPane(w, c, id, m, other); }
      forall i | 0 <= i < |w'.attaches| ensures AttachOk(w', i, m) { SubscribedKeepsAttach(w, c, id, m, i); }
      forall n | 0 <= n < |w'.ledger| ensures SubOk(w', n, m) {
        if n < |w.ledger| { SubscribedKeepsOldSub(w, c, id, m, n); } else { SubscribedIsEven(w, c, id, m); }
      }
    }
  }

  lemma FailedSpawnKeeps(w: World, c: nat, id: string, m: Mode)
    requires Inv(w, m) && AtRest(m) && c < |w.conns| && w.bound == Some(c) && !w.destroyed && id !in w.panes
    ensures Inv(Unregister(RouteStatus(Register(w, c, id), id), id, |w.handles|), m)
  {
    var w0 := Register(w, c, id);
    RegisterKeeps(w, c, id, m);
    RouteStatusKeeps(w0, id, m);
    FreshPane(w, c, id, m);
    UnregisterKeeps(RouteStatus(w0, id), id, |w.handles|, m);
  }

  /** A pane that was just registered is still empty, and unknown to the gate, after its status went out. */
  lemma FreshPane(w: World, c: nat, id: string, m: Mode)
    requires Inv(w, m) && c < |w.conns| && id !in w.panes
    ensures var w1 := RouteStatus(Register(w, c, id), id);
      && id in w1.panes && w1.panes[id].handle == |w.handles| && w1.panes[id].held == []
      && Prune(w1.gate, id) == w1.gate
  {
    var w0 := Register(w, c, id);
    assert Prune(w0.gate, id).panes == w0.gate.panes;
    RouteStatusOnPane(w0, id);
    DeliverOnPanes(w0, Status(id, |w.handles|));
  }

  lemma FreshSpawnKeeps(w: World, c: nat, id: string, during: seq<HandleEvent>, m: Mode)
    requires Inv(w, m) && AtRest(m) && c < |w.conns| && w.bound == Some(c) && !w.destroyed && id !in w.panes
    ensures Inv(Callbacks(RouteStatus(Register(w, c, id), id), during), m)
  {
    var w0 := Register(w, c, id);
    RegisterKeeps(w, c, id, m);
    RouteStatusKeeps(w0, id, m);
    CallbacksKeep(RouteStatus(w0, id), during, m);
  }

  lemma SpawnKeeps(w: World, c: nat, id: string, backendOk: bool, during: seq<HandleEvent>, m: Mode)
    requires Inv(w, m) && AtRest(m) && c < |w.conns| && (w.bound == Some(c) || w.destroyed)
    ensures Inv(SpawnPane(w, c, id, backendOk, during).0, m)
  {
    if !w.destroyed {
      if id in w.panes {
        SubscribedKeeps(w, c, id, m);
      } else if backendOk {
        FreshSpawnKeeps(w, c, id, during, m);
      } else {
        FailedSpawnKeeps(w, c, id, m);
      }
    }
  }
}
