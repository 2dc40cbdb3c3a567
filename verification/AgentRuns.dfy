/** Every event keeps the invariant, so every run does. */
module AgentRuns {
  import opened Chunks
  import opened FlowControl
  import opened Replay
  import opened AgentWorld
  import opened AgentInvariant
  import opened AgentSends
  import opened AgentDelivery
  import opened AgentPanes
  import opened AgentExits
  import opened AgentSpawns
  import opened AgentAttaches
  import opened AgentSettles
  import opened AgentLease

  // ---------------------------------------------------------------- requests

  lemma NumberedKeepsConns(w: World, c: nat, m: Mode)
    requires Inv(w, Quiet) && c < |w.conns| && m == Quiet.(sc := c, sk := w.conns[c].requests)
    ensures ConnsOk(Numbered(w, c), m)
  {
    var w' := Numbered(w, c);
    PendingSame(w, w');
    forall d | 0 <= d < |w'.conns| ensures ConnOk(w', d, m) {
      assert ConnOk(w, d, Quiet);
      assert FramesOk(w', d);
      assert AnswersOk(w', d, m);
    }
  }

  lemma NumberedKeepsAttach(w: World, c: nat, m: Mode, i: nat)
    requires Inv(w, Quiet) && c < |w.conns| && m == Quiet.(sc := c, sk := w.conns[c].requests) && i < |w.attaches|
    ensures AttachOk(Numbered(w, c), i, m)
    ensures w.attaches[i].conn == c ==> w.attaches[i].request != m.sk
  {
    var w', a := Numbered(w, c), w.attaches[i];
    assert AttachOk(w, i, Quiet);
    WindowsSame(w, w');
    if a.barrier.Settled? && a.barrier.answer.Some? { AnsweredStays(w, w', a, a.barrier.answer.value); }
  }

  lemma NumberedKeeps(w: World, c: nat, m: Mode)
    requires Inv(w, Quiet) && c < |w.conns| && m == Quiet.(sc := c, sk := w.conns[c].requests)
    ensures Inv(Numbered(w, c), m) && Unused(Numbered(w, c), c, w.conns[c].requests)
  {
    var w' := Numbered(w, c);
    NumberedKeepsConns(w, c, m);
    ConnsOnly(w, w', Quiet, m);
    forall i | 0 <= i < |w'.attaches| ensures AttachOk(w', i, m) { NumberedKeepsAttach(w, c, m, i); }
    forall n | 0 <= n < |w'.ledger| ensures SubOk(w', n, m) { assert SubOk(w, n, Quiet); }
    forall i | 0 <= i < |w'.attaches| && w'.attaches[i].conn == c
      ensures w'.attaches[i].request != w.conns[c].requests
    {
      NumberedKeepsAttach(w, c, m, i);
    }
  }

  lemma ServeKeeps(w: World, c: nat, r: Request, m: Mode)
    requires Inv(w, m) && AtRest(m) && c < |w.conns| && !r.AttachTo? && (w.bound == Some(c) || w.destroyed)
    ensures Inv(Serve(w, c, r).0, m)
  {
    match r
    case Spawn(id, backendOk, during) => SpawnKeeps(w, c, id, backendOk, during, m);
    case Write(id, during) => CallbacksKeep(w, during, m);
    case Resize(id, during) => CallbacksKeep(w, during, m);
    case Kill(id, during) => CallbacksKeep(w, during, m);
    case _ =>
  }

  lemma DispatchKeeps(w: World, c: nat, r: Request)
    requires Inv(w, Quiet) && c < |w.conns| && (w.bound == Some(c) || w.destroyed)
    ensures Inv(Dispatch(w, c, r), Quiet)
  {
    var k := w.conns[c].requests;
    var m := Quiet.(sc := c, sk := k);
    NumberedKeeps(w, c, m);
    var w0 := Numbered(w, c);
    if r.AttachTo? {
      StartAttachKeeps(w0, c, k, r.id, r.snapshotFails, m, Quiet);
    } else {
      ServeKeeps(w0, c, r, m);
      var (w1, reply) := Serve(w0, c, r);
      AnswerKeeps(w1, c, k, reply, m);
    }
  }

  // ---------------------------------------------------------------- inbound items

  /** A connection that still takes requests is the holder, as long as the store lives. */
  lemma SpeakerHolds(w: World, c: nat)
    requires Inv(w, Quiet) && c < |w.conns| && w.conns[c].established && !w.conns[c].ended
    ensures w.bound == Some(c) || w.destroyed
  {
    assert ConnOk(w, c, Quiet);
  }

  lemma OnItemKeeps(w: World, c: nat, item: Item)
    requires Inv(w, Quiet) && c < |w.conns|
    ensures Inv(OnItem(w, c, item), Quiet)
  {
    var conn := w.conns[c];
    if conn.ended || conn.revoked {
    } else if item.Fatal? {
      EndKeeps(w, c, Quiet, Quiet);
    } else if !conn.established {
      if item.GoodHello? { EstablishKeeps(w, Reconnect(c, item.nested, item.after)); }
      else { EndKeeps(w, c, Quiet, Quiet); }
    } else {
      SpeakerHolds(w, c);
      match item
      case Req(request) => DispatchKeeps(w, c, request);
      case Ack(id, bytes) => if !w.destroyed { GateStepKeeps(w, Acked(id, bytes), Quiet); }
      case WindowSize(size, pane) => if !w.destroyed { GateStepKeeps(w, Window(size, pane), Quiet); }
      case _ =>
    }
  }

  // ---------------------------------------------------------------- the store goes away

  lemma DestroyedKeepsAttach(w: World, m: Mode, i: nat)
    requires Inv(w, m) && w.bound.None? && i < |w.attaches|
    ensures AttachOk(w.(destroyed := true, panes := map[], attaches := Abandon(w.attaches, w.panes)), i, Quiet)
  {
    var w' := w.(destroyed := true, panes := map[], attaches := Abandon(w.attaches, w.panes));
    assert AttachOk(w, i, m);
    var a := w.attaches[i];
    assert !HoldWindow(w', i);
    if a.barrier.Settled? && a.barrier.answer.Some? { AnsweredStays(w, w', a, a.barrier.answer.value); }
  }

  lemma DestroyedKeepsConns(w: World, m: Mode)
    requires Inv(w, m) && w.bound.None? && m == Quiet.(x := m.x)
    ensures ConnsOk(w.(destroyed := true, panes := map[], attaches := Abandon(w.attaches, w.panes)), Quiet)
  {
    var w' := w.(destroyed := true, panes := map[], attaches := Abandon(w.attaches, w.panes));
    forall i: nat, c: nat, k: nat ensures Pending(w', i, c, k) == Pending(w, i, c, k) {}
    forall c | 0 <= c < |w'.conns| ensures ConnOk(w', c, Quiet) {
      assert ConnOk(w, c, m);
      assert FramesOk(w', c);
      assert AnswersOk(w', c, Quiet);
    }
  }

  lemma DestroyKeeps(w: World)
    requires Inv(w, Quiet)
    ensures Inv(Destroy(w), Quiet)
  {
    if !w.destroyed {
      var m := Quiet.(x := Leaver(w, Quiet));
      var w1 := UnbindInternal(w);
      UnbindKeeps(w, Quiet, m);
      var w' := w1.(destroyed := true, panes := map[], attaches := Abandon(w1.attaches, w1.panes));
      assert Abandon(w1.attaches, w1.panes) == Abandon(w.attaches, w.panes);
      assert Destroy(w) == w';
      DestroyedKeepsConns(w1, m);
      forall h | 0 <= h < |w'.handles| ensures HandleOk(w', h, Quiet) {}
      forall i | 0 <= i < |w'.attaches| ensures AttachOk(w', i, Quiet) { DestroyedKeepsAttach(w1, m, i); }
      forall i, j | 0 <= i < j < |w'.attaches| ensures Apart(w', i, j) { assert Apart(w1, i, j); }
      forall n | 0 <= n < |w'.ledger| ensures SubOk(w', n, Quiet) { assert SubOk(w1, n, m); }
    }
  }

  // ---------------------------------------------------------------- steps and runs

  lemma AcceptKeeps(w: World)
    requires Inv(w, Quiet)
    ensures Inv(w.(conns := w.conns + [NewConn]), Quiet)
  {
    var w' := w.(conns := w.conns + [NewConn]);
    WindowsSame(w, w');
    PendingSame(w, w');
    forall k: nat ensures AnswerCount(NewConn.trace, k) == 0 {}
    forall c | 0 <= c < |w'.conns| ensures ConnOk(w', c, Quiet) {
      if c < |w.conns| { assert ConnOk(w, c, Quiet); }
      assert FramesOk(w', c);
      assert AnswersOk(w', c, Quiet);
    }
    forall id | id in w'.panes ensures PaneOk(w', id, Quiet) {
      assert PaneOk(w, id, Quiet);
      FeedStays(w, w', w.panes[id], w'.panes[id]);
    }
    forall h | 0 <= h < |w'.handles| ensures HandleOk(w', h, Quiet) { assert HandleOk(w, h, Quiet); }
    forall i | 0 <= i < |w'.attaches| ensures AttachOk(w', i, Quiet) { AcceptKeepsAttach(w, i); }
    forall i, j | 0 <= i < j < |w'.attaches| ensures Apart(w', i, j) { assert Apart(w, i, j); }
    forall n | 0 <= n < |w'.ledger| ensures SubOk(w', n, Quiet) { assert SubOk(w, n, Quiet); }
  }

  lemma AcceptKeepsAttach(w: World, i: nat)
    requires Inv(w, Quiet) && i < |w.attaches|
    ensures AttachOk(w.(conns := w.conns + [NewConn]), i, Quiet)
  {
    var w', a := w.(conns := w.conns + [NewConn]), w.attaches[i];
    assert AttachOk(w, i, Quiet);
    WindowsSame(w, w');
    if a.barrier.Settled? && a.barrier.answer.Some? { AnsweredStays(w, w', a, a.barrier.answer.value); }
  }

  lemma SetSinkKeeps(w: World, c: nat, sink: seq<bool>)
    requires Inv(w, Quiet) && c < |w.conns|
    ensures Inv(w.(conns := w.conns[c := w.conns[c].(sink := sink)]), Quiet)
  {
    var w' := w.(conns := w.conns[c := w.conns[c].(sink := sink)]);
    forall d | 0 <= d < |w.conns| ensures FlagsOk(w', d, Quiet) { assert ConnOk(w, d, Quiet); }
    FlagsKeep(w, w', c, Quiet, Quiet);
  }

  lemma StepKeeps(w: World, e: Event)
    requires Inv(w, Quiet)
    ensures Inv(Step(w, e), Quiet)
  {
    match e
    case Accept => AcceptKeeps(w);
    case SetSink(c, sink) => if c < |w.conns| { SetSinkKeeps(w, c, sink); }
    case Inbound(c, item) => if c < |w.conns| { OnItemKeeps(w, c, item); }
    case EndOfInput(c) => if c < |w.conns| { EndKeeps(w, c, Quiet, Quiet); }
    case Backend(e) => CallbackKeeps(w, e, Quiet);
    case Parsed(id) => ParseKeeps(w, id, Quiet);
    case Settle(i) => SettleKeeps(w, i);
    case Shutdown => DestroyKeeps(w);
  }

  lemma {:induction false} RunKeeps(w: World, events: seq<Event>)
    requires Inv(w, Quiet)
    ensures Inv(Run(w, events), Quiet)
    decreases |events|
  {
    if events != [] {
      StepKeeps(w, events[0]);
      RunKeeps(Step(w, events[0]), events[1..]);
    }
  }

  /** The invariant holds after every interleaving of events. */
  lemma EveryRun(events: seq<Event>)
    ensures Inv(Run(Init, events), Quiet)
  {
    InitInv();
    RunKeeps(Init, events);
  }
}
