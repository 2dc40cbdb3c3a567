/** Logs only grow: what a run has sent, heard, recorded and decided stays as it was. */
module AgentHistory {
  import opened Chunks
  import opened FlowControl
  import opened Replay
  import opened AgentWorld

  /** An ended connection is silent for good; the others only append. */
  ghost predicate ConnGoesOn(c: Conn, c': Conn) {
    && c.trace <= c'.trace
    && (c.ended ==> c'.ended && c'.trace == c.trace)
    && c.requests <= c'.requests && c.lost <= c'.lost
  }

  ghost predicate HandleGoesOn(h: Handle, h': Handle) {
    h'.id == h.id && h.emitted <= h'.emitted
  }

  ghost predicate AttachGoesOn(a: Attach, a': Attach) {
    && a'.(barrier := Waiting) == a.(barrier := Waiting)
    && (a.barrier.Settled? ==> a' == a)
  }

  ghost predicate ConnsGoOn(w: World, w': World) {
    |w.conns| <= |w'.conns| && forall c :: 0 <= c < |w.conns| ==> ConnGoesOn(w.conns[c], w'.conns[c])
  }

  ghost predicate HandlesGoOn(w: World, w': World) {
    |w.handles| <= |w'.handles| && forall h :: 0 <= h < |w.handles| ==> HandleGoesOn(w.handles[h], w'.handles[h])
  }

  ghost predicate AttachesGoOn(w: World, w': World) {
    |w.attaches| <= |w'.attaches| && forall i :: 0 <= i < |w.attaches| ==> AttachGoesOn(w.attaches[i], w'.attaches[i])
  }

  ghost predicate Later(w: World, w': World) {
    && ConnsGoOn(w, w') && HandlesGoOn(w, w') && AttachesGoOn(w, w')
    && w.ledger <= w'.ledger && w.binds <= w'.binds
  }

  lemma LaterTransitive(u: World, v: World, w: World)
    requires Later(u, v) && Later(v, w)
    ensures Later(u, w)
  {
    forall c | 0 <= c < |u.conns| ensures ConnGoesOn(u.conns[c], w.conns[c]) {
      assert ConnGoesOn(u.conns[c], v.conns[c]) && ConnGoesOn(v.conns[c], w.conns[c]);
    }
    forall h | 0 <= h < |u.handles| ensures HandleGoesOn(u.handles[h], w.handles[h]) {
      assert HandleGoesOn(u.handles[h], v.handles[h]) && HandleGoesOn(v.handles[h], w.handles[h]);
    }
    forall i | 0 <= i < |u.attaches| ensures AttachGoesOn(u.attaches[i], w.attaches[i]) {
      assert AttachGoesOn(u.attaches[i], v.attaches[i]) && AttachGoesOn(v.attaches[i], w.attaches[i]);
    }
  }

  lemma EndLater(w: World, c: nat)
    requires Wf(w) && c < |w.conns|
    ensures Later(w, End(w, c))
  {
  }

  lemma DeliverLater(w: World, f: Frame)
    requires Wf(w)
    ensures Later(w, Deliver(w, f))
  {
    if w.bound.Some? && !w.conns[w.bound.value].ended {
      var c := w.bound.value;
      var w1 := w.(conns := w.conns[c := Send(w.conns[c], f).0]);
      assert Later(w, w1);
      if !Send(w.conns[c], f).1 {
        EndLater(UnbindInternal(w1), c);
        LaterTransitive(w, UnbindInternal(w1), End(UnbindInternal(w1), c));
      }
    }
  }

  lemma DeliverDataLater(w: World, id: string, h: nat, text: string)
    requires Wf(w)
    ensures Later(w, DeliverData(w, id, h, text))
  {
    DeliverLater(w, Data(id, h, text));
  }

  lemma {:induction false} DeliverAllLater(w: World, id: string, h: nat, chunks: seq<string>)
    requires Wf(w)
    ensures Later(w, DeliverAll(w, id, h, chunks))
    decreases |chunks|
  {
    if chunks != [] {
      var w1 := DeliverData(w, id, h, chunks[0]);
      DeliverDataLater(w, id, h, chunks[0]);
      DeliverAllLater(w1, id, h, chunks[1..]);
      LaterTransitive(w, w1, DeliverAll(w, id, h, chunks));
    }
  }

  lemma RouteStatusLater(w: World, id: string)
    requires Wf(w)
    ensures Later(w, RouteStatus(w, id))
  {
    if id in w.panes { DeliverLater(w, Status(id, w.panes[id].handle)); }
  }

  lemma OnDataLater(w: World, h: nat, text: string, replayFails: bool)
    requires Wf(w)
    ensures Later(w, OnData(w, h, text, replayFails))
  {
    if Live(w, h) {
      var id := w.handles[h].id;
      var w1 := w.(handles := w.handles[h := w.handles[h].(emitted := w.handles[h].emitted + [text])],
                   panes := w.panes[id := FeedReplay(w.panes[id], text, replayFails)]);
      assert Later(w, w1);
      DeliverDataLater(w1, id, w1.panes[id].handle, text);
      LaterTransitive(w, w1, DeliverData(w1, id, w1.panes[id].handle, text));
    }
  }

  lemma FlushHeldLater(w: World, id: string)
    requires Wf(w) && id in w.panes
    ensures Later(w, FlushHeld(w, id))
  {
    var rec := w.panes[id];
    DeliverAllLater(w.(panes := w.panes[id := rec.(held := [])]), id, rec.handle, rec.held);
  }

  lemma FarewellLater(w: World, id: string, code: int)
    requires Wf(w) && id in w.panes
    ensures Later(w, Farewell(w, id, code))
  {
    var w1, f := Forget(w, id), Exit(id, w.panes[id].handle, code);
    assert Later(w, w1);
    DeliverLater(w1, f);
    LaterTransitive(w, w1, Deliver(w1, f));
  }

  lemma PaneExitedLater(w: World, id: string, code: int, finalStatus: bool)
    requires Wf(w)
    ensures Later(w, PaneExited(w, id, code, finalStatus))
  {
    if id in w.panes {
      var w1 := FlushHeld(w, id);
      FlushHeldLater(w, id);
      var w2 := w1.(gate := Prune(w1.gate, id));
      var w3 := if finalStatus then RouteStatus(w2, id) else w2;
      RouteStatusLater(w2, id);
      LaterTransitive(w, w2, w3);
      FarewellLater(w3, id, code);
      LaterTransitive(w, w3, Farewell(w3, id, code));
    }
  }

  lemma CallbackLater(w: World, e: HandleEvent)
    requires Wf(w)
    ensures Later(w, Callback(w, e))
  {
    match e
    case Output(h, text, replayFails) => OnDataLater(w, h, text, replayFails);
    case StatusChange(h) => if Live(w, h) { RouteStatusLater(w, w.handles[h].id); }
    case Exited(h, code, finalStatus) =>
      if h < |w.handles| && w.handles[h].state.Running? {
        var w1 := PaneExited(w, w.handles[h].id, code, finalStatus);
        PaneExitedLater(w, w.handles[h].id, code, finalStatus);
        GoneLater(w1, h, code);
        LaterTransitive(w, w1, Callback(w, e));
      }
  }

  lemma GoneLater(w: World, h: nat, code: int)
    requires h < |w.handles|
    ensures Later(w, w.(handles := w.handles[h := w.handles[h].(state := Gone(code))]))
  {
  }

  lemma {:induction false} CallbacksLater(w: World, events: seq<HandleEvent>)
    requires Wf(w)
    ensures Later(w, Callbacks(w, events))
    decreases |events|
  {
    if events != [] {
      CallbackLater(w, events[0]);
      CallbacksLater(Callback(w, events[0]), events[1..]);
      LaterTransitive(w, Callback(w, events[0]), Callbacks(w, events));
    }
  }

  lemma SpawnLater(w: World, c: nat, id: string, backendOk: bool, during: seq<HandleEvent>)
    requires Wf(w) && c < |w.conns|
    ensures Later(w, SpawnPane(w, c, id, backendOk, during).0)
  {
    if !w.destroyed && id !in w.panes {
      var w1 := RouteStatus(Register(w, c, id), id);
      RegisterLater(w, c, id);
      if backendOk {
        CallbacksLater(w1, during);
        LaterTransitive(w, w1, Callbacks(w1, during));
      } else {
        UnregisterLater(w1, id, |w.handles|);
        LaterTransitive(w, w1, Unregister(w1, id, |w.handles|));
      }
    }
  }

  lemma RegisterLater(w: World, c: nat, id: string)
    requires Wf(w) && c < |w.conns|
    ensures Later(w, RouteStatus(Register(w, c, id), id))
  {
    var w0 := Register(w, c, id);
    assert Later(w, w0);
    RouteStatusLater(w0, id);
    LaterTransitive(w, w0, RouteStatus(w0, id));
  }

  lemma UnregisterLater(w: World, id: string, h: nat)
    requires Wf(w) && h < |w.handles| && id in w.panes
    ensures Later(w, Unregister(w, id, h))
  {
  }

  lemma StartAttachLater(w: World, c: nat, k: nat, id: string, fails: bool)
    requires Wf(w) && c < |w.conns|
    ensures Later(w, StartAttach(w, c, k, id, fails))
  {
  }

  lemma AnswerLater(w: World, c: nat, k: nat, reply: Reply)
    requires Wf(w) && c < |w.conns|
    ensures Later(w, Answer(w, c, k, reply))
  {
  }

  lemma AnsweredLater(w: World, c: nat, k: nat, r: Request)
    requires Wf(w) && c < |w.conns| && !r.AttachTo?
    ensures Later(w, Answer(Serve(w, c, r).0, c, k, Serve(w, c, r).1))
  {
    ServeLater(w, c, r);
    AnswerLater(Serve(w, c, r).0, c, k, Serve(w, c, r).1);
    LaterTransitive(w, Serve(w, c, r).0, Answer(Serve(w, c, r).0, c, k, Serve(w, c, r).1));
  }

  lemma NumberedLater(w: World, c: nat)
    requires Wf(w) && c < |w.conns|
    ensures Later(w, Numbered(w, c))
  {
  }

  lemma DispatchLater(w: World, c: nat, r: Request)
    requires Wf(w) && c < |w.conns|
    ensures Later(w, Dispatch(w, c, r))
  {
    var k, w0 := w.conns[c].requests, Numbered(w, c);
    NumberedLater(w, c);
    if r.AttachTo? {
      StartAttachLater(w0, c, k, r.id, r.snapshotFails);
      LaterTransitive(w, w0, StartAttach(w0, c, k, r.id, r.snapshotFails));
    } else {
      AnsweredLater(w0, c, k, r);
      LaterTransitive(w, w0, Answer(Serve(w0, c, r).0, c, k, Serve(w0, c, r).1));
    }
  }

  lemma ServeLater(w: World, c: nat, r: Request)
    requires Wf(w) && c < |w.conns| && !r.AttachTo?
    ensures Later(w, Serve(w, c, r).0)
  {
    match r
    case Spawn(id, backendOk, during) => SpawnLater(w, c, id, backendOk, during);
    case Write(id, during) => CallbacksLater(w, during);
    case Resize(id, during) => CallbacksLater(w, during);
    case Kill(id, during) => CallbacksLater(w, during);
    case _ =>
  }

  lemma CloseLater(w: World, i: nat, answer: Option<nat>, conn: Conn)
    requires Wf(w) && i < |w.attaches| && !w.attaches[i].barrier.Settled?
    requires ConnGoesOn(w.conns[w.attaches[i].conn], conn)
    ensures Later(w, w.(attaches := w.attaches[i := w.attaches[i].(barrier := Settled(answer))],
                        conns := w.conns[w.attaches[i].conn := conn]))
  {
  }

  lemma SettleLater(w: World, i: nat)
    requires Wf(w)
    ensures Later(w, SettleAttach(w, i))
  {
    if i < |w.attaches| && (w.attaches[i].barrier.Ready? || w.attaches[i].barrier.Refused?) {
      var a := w.attaches[i];
      var before := w.conns[a.conn];
      if a.barrier.Ready? && a.id in w.panes && w.panes[a.id].handle == a.handle && !before.ended {
        SettleReadyLater(w, i);
      } else {
        CloseLater(w, i, None, before);
        var w1 := w.(attaches := w.attaches[i := a.(barrier := Settled(None))]);
        assert w1.conns == w1.conns[a.conn := before];
        var code := if a.barrier.Refused? then a.barrier.code else UnknownPane;
        AnswerLater(w1, a.conn, a.request, Failed(code));
        LaterTransitive(w, w1, Answer(w1, a.conn, a.request, Failed(code)));
      }
    }
  }

  lemma SettleReadyLater(w: World, i: nat)
    requires Wf(w) && i < |w.attaches| && w.attaches[i].barrier.Ready?
    requires var a := w.attaches[i]; a.id in w.panes && w.panes[a.id].handle == a.handle && !w.conns[a.conn].ended
    ensures Later(w, SettleAttach(w, i))
  {
    var a := w.attaches[i];
    var before := w.conns[a.conn];
    var (conn, sent) := Send(before, Response(a.request, Attached(a.barrier.snapshot)));
    var answer := if sent then Some(|before.trace|) else None;
    CloseLater(w, i, answer, conn);
    var w1 := w.(attaches := w.attaches[i := a.(barrier := Settled(answer))], conns := w.conns[a.conn := conn]);
    ReleasedLater(w, w1, a);
  }

  lemma ReleasedLater(w: World, w1: World, a: Attach)
    requires Wf(w) && Wf(w1) && Later(w, w1)
    ensures Later(w, Release(w1, a))
  {
    ReleaseLater(w1, a);
    LaterTransitive(w, w1, Release(w1, a));
  }

  lemma ReleaseLater(w: World, a: Attach)
    requires Wf(w)
    ensures Later(w, Release(w, a))
  {
    if a.id in w.panes {
      var rec := w.panes[a.id];
      var open := rec.(holds := if rec.holds > 0 then rec.holds - 1 else 0);
      DeliverAllLater(w.(panes := w.panes[a.id := open.(held := [])]), a.id, a.handle, rec.held);
    }
  }

  lemma RevokeLater(w: World, c: nat)
    requires Wf(w) && c < |w.conns|
    ensures Later(w, Revoke(w, c))
  {
  }

  /** A displaced connection goes, and its shutdown callback opens others. */
  lemma {:induction false} ShutdownLater(w: World, c: nat, rs: seq<Reconnect>)
    requires Wf(w) && c < |w.conns|
    ensures Later(w, Reconnects(Revoke(w, c), rs))
    decreases rs, 1
  {
    RevokeLater(w, c);
    ReconnectsLater(Revoke(w, c), rs);
    LaterTransitive(w, Revoke(w, c), Reconnects(Revoke(w, c), rs));
  }

  lemma {:induction false} BindLater(w: World, r: Reconnect)
    requires Wf(w) && r.conn < |w.conns|
    ensures Later(w, Bind(w, r))
    decreases r, 0
  {
    var w0 := w.(binds := w.binds + [r.conn]);
    if w0.bound.Some? {
      var incumbent := w0.bound.value;
      var w1 := UnbindInternal(w0);
      var w2 := if w1.conns[incumbent].ended then w1 else Reconnects(Revoke(w1, incumbent), r.inner);
      if !w1.conns[incumbent].ended { ShutdownLater(w1, incumbent, r.inner); }
      LaterTransitive(w, w1, w2);
      if w2.bound.Some? && !w2.conns[r.conn].ended {
        ShutdownLater(w2, r.conn, r.after);
        LaterTransitive(w, w2, Reconnects(Revoke(w2, r.conn), r.after));
      }
    }
  }

  lemma NamedLater(w: World, c: nat)
    requires Wf(w) && c < |w.conns|
    ensures var conn := w.conns[c].(holdsLease := !w.conns[c].revoked, established := true);
      Later(w, w.(conns := w.conns[c := conn]))
  {
  }

  lemma GreetedLater(w: World, c: nat)
    requires Wf(w) && c < |w.conns|
    ensures Later(w, w.(conns := w.conns[c := w.conns[c].(greeted := true)]))
  {
  }

  lemma {:induction false} EstablishLater(w: World, r: Reconnect)
    requires Wf(w)
    ensures Later(w, Establish(w, r))
    decreases r, 1
  {
    if r.conn < |w.conns| && !w.conns[r.conn].ended && !w.conns[r.conn].greeted {
      var w0 := w.(conns := w.conns[r.conn := w.conns[r.conn].(greeted := true)]);
      GreetedLater(w, r.conn);
      BindLater(w0, r);
      LaterTransitive(w, w0, Bind(w0, r));
      NamedLater(Bind(w0, r), r.conn);
      LaterTransitive(w, Bind(w0, r), Establish(w, r));
    }
  }

  lemma {:induction false} ReconnectsLater(w: World, rs: seq<Reconnect>)
    requires Wf(w)
    ensures Later(w, Reconnects(w, rs))
    decreases rs, 0
  {
    if rs != [] {
      EstablishLater(w, rs[0]);
      ReconnectsLater(Establish(w, rs[0]), rs[1..]);
      LaterTransitive(w, Establish(w, rs[0]), Reconnects(w, rs));
    }
  }

  /** No event rewrites history, and none adds to the trace of an ended connection. */
  lemma StepLater(w: World, e: Event)
    requires Wf(w)
    ensures Later(w, Step(w, e))
  {
    match e
    case Inbound(c, item) => if c < |w.conns| { ItemLater(w, c, item); }
    case EndOfInput(c) => if c < |w.conns| { EndLater(w, c); }
    case Backend(e) => CallbackLater(w, e);
    case Settle(i) => SettleLater(w, i);
    case Parsed(id) => ParseLater(w, id);
    case Shutdown => DestroyLater(w);
    case Accept =>
    case SetSink(c, sink) => if c < |w.conns| { SinkLater(w, c, sink); }
  }

  lemma SinkLater(w: World, c: nat, sink: seq<bool>)
    requires c < |w.conns|
    ensures Later(w, w.(conns := w.conns[c := w.conns[c].(sink := sink)]))
  {
  }

  lemma ItemLater(w: World, c: nat, item: Item)
    requires Wf(w) && c < |w.conns|
    ensures Later(w, OnItem(w, c, item))
  {
    EndLater(w, c);
    if item.GoodHello? && !w.conns[c].established {
      EstablishLater(w, Reconnect(c, item.nested, item.after));
    } else if w.conns[c].established && !w.conns[c].ended && !w.conns[c].revoked && !item.Fatal? {
      SpokenLater(w, c, item);
    }
  }

  lemma SpokenLater(w: World, c: nat, item: Item)
    requires Wf(w) && c < |w.conns| && w.conns[c].established && !w.conns[c].ended && !w.conns[c].revoked
    requires !item.Fatal?
    ensures Later(w, OnItem(w, c, item))
  {
    match item
    case Req(request) => DispatchLater(w, c, request);
    case Ack(id, bytes) => FlowLater(w, OnAck(w.gate, id, bytes));
    case WindowSize(size, pane) => FlowLater(w, OnWindow(w.gate, size, pane));
    case _ =>
  }

  lemma FlowLater(w: World, r: (GateState, Decisions))
    requires Wf(w)
    ensures Later(w, Flow(w, r))
  {
  }

  lemma ParseLater(w: World, id: string)
    requires Wf(w)
    ensures Later(w, Parse(w, id))
  {
  }

  lemma DestroyLater(w: World)
    requires Wf(w)
    ensures Later(w, Destroy(w))
  {
  }

  lemma {:induction false} RunLater(w: World, events: seq<Event>)
    requires Wf(w)
    ensures Later(w, Run(w, events))
    decreases |events|
  {
    if events != [] {
      StepLater(w, events[0]);
      RunLater(Step(w, events[0]), events[1..]);
      LaterTransitive(w, Step(w, events[0]), Run(w, events));
    }
  }
}
