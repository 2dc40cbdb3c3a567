/** Pushes flow only to panes the connection itself spawned, adopted or attached. */
module AgentSubscriptions {
  import opened Chunks
  import opened FlowControl
  import opened Replay
  import opened AgentWorld
  import opened AgentInvariant
  import opened AgentHistory
  import opened AgentRuns
  import opened AgentTheorems

  /** By the time its trace was `n` frames long, connection `c` had subscribed to handle `h`. */
  ghost predicate Listed(ledger: seq<Sub>, c: nat, h: nat, n: nat) {
    exists k :: 0 <= k < |ledger| && ledger[k].conn == c && ledger[k].handle == h && ledger[k].at <= n
  }

  /** A frame about `h` may go to whoever is bound now. */
  ghost predicate MayHear(w: World, h: nat) {
    w.bound.Some? ==>
      w.bound.value < |w.conns| && Listed(w.ledger, w.bound.value, h, |w.conns[w.bound.value].trace|)
  }

  ghost predicate TraceEntitled(ledger: seq<Sub>, c: nat, trace: seq<Frame>) {
    forall n :: 0 <= n < |trace| && Concerns(trace[n]) ==> Listed(ledger, c, trace[n].handle, n)
  }

  /** Every frame about a pane, sent or still to be sent, has its subscription behind it. */
  ghost predicate Entitled(w: World) {
    && Wf(w)
    && (forall c :: 0 <= c < |w.conns| ==> TraceEntitled(w.ledger, c, w.conns[c].trace))
    && (forall id :: id in w.panes && w.panes[id].subscribed ==> w.bound.Some? && MayHear(w, w.panes[id].handle))
  }

  lemma ListedLonger(ledger: seq<Sub>, more: seq<Sub>, c: nat, h: nat, n: nat, n': nat)
    requires Listed(ledger, c, h, n) && n <= n'
    ensures Listed(ledger + more, c, h, n')
  {
    var k :| 0 <= k < |ledger| && ledger[k].conn == c && ledger[k].handle == h && ledger[k].at <= n;
    assert (ledger + more)[k] == ledger[k];
  }

  lemma EntitledSnoc(ledger: seq<Sub>, c: nat, trace: seq<Frame>, f: Frame)
    requires TraceEntitled(ledger, c, trace)
    requires Concerns(f) ==> Listed(ledger, c, f.handle, |trace|)
    ensures TraceEntitled(ledger, c, trace + [f])
  {
  }

  /** What is sent on one connection is entitled, and nothing else changes hands. */
  lemma SentKeeps(w: World, c: nat, conn: Conn, f: Frame)
    requires Entitled(w) && c < |w.conns|
    requires conn.trace == w.conns[c].trace || conn.trace == w.conns[c].trace + [f]
    requires Concerns(f) ==> Listed(w.ledger, c, f.handle, |w.conns[c].trace|)
    ensures Entitled(w.(conns := w.conns[c := conn]))
    ensures forall h: nat :: MayHear(w, h) ==> MayHear(w.(conns := w.conns[c := conn]), h)
  {
    var w' := w.(conns := w.conns[c := conn]);
    EntitledSnoc(w.ledger, c, w.conns[c].trace, f);
    forall h: nat | MayHear(w, h) ensures MayHear(w', h) {
      if w.bound.Some? {
        var b := w.bound.value;
        ListedLonger(w.ledger, [], b, h, |w.conns[b].trace|, |w'.conns[b].trace|);
        assert w.ledger + [] == w.ledger;
      }
    }
  }

  lemma UnboundKeeps(w: World)
    requires Entitled(w)
    ensures Entitled(UnbindInternal(w))
  {
  }

  lemma EndKeeps(w: World, c: nat)
    requires Entitled(w) && c < |w.conns|
    ensures Entitled(End(w, c))
    ensures End(w, c).bound.None? || End(w, c).bound == w.bound
  {
    if !w.conns[c].ended {
      var w1 := w.(conns := w.conns[c := w.conns[c].(ended := true)]);
      SentKeeps(w, c, w1.conns[c], Hello);
      UnboundKeeps(w1);
    }
  }

  lemma DeliverKeeps(w: World, f: Frame)
    requires Entitled(w) && Concerns(f) && MayHear(w, f.handle)
    ensures Entitled(Deliver(w, f))
    ensures forall h: nat :: MayHear(w, h) ==> MayHear(Deliver(w, f), h)
  {
    if w.bound.Some? && !w.conns[w.bound.value].ended {
      var c := w.bound.value;
      var (conn, sent) := Send(w.conns[c], f);
      SentKeeps(w, c, conn, f);
      var w1 := w.(conns := w.conns[c := conn]);
      if !sent {
        UnboundKeeps(w1);
        EndKeeps(UnbindInternal(w1), c);
      }
    }
  }

  lemma DeliverDataKeeps(w: World, id: string, h: nat, text: string)
    requires Entitled(w) && MayHear(w, h)
    ensures Entitled(DeliverData(w, id, h, text)) && MayHear(DeliverData(w, id, h, text), h)
  {
    DeliverKeeps(w, Data(id, h, text));
    var w1 := Deliver(w, Data(id, h, text));
    if w1.bound.Some? {
      var (gate, decisions) := OnDataEmitted(w1.gate, id, text);
      DecisionsKeep(w1.(gate := gate), decisions);
    }
  }

  lemma DecisionsKeep(w: World, decisions: Decisions)
    requires Entitled(w)
    ensures Entitled(ApplyDecisions(w, decisions))
    ensures forall h: nat :: MayHear(w, h) ==> MayHear(ApplyDecisions(w, decisions), h)
  {
  }

  lemma {:induction false} DeliverAllKeeps(w: World, id: string, h: nat, chunks: seq<string>)
    requires Entitled(w) && MayHear(w, h)
    ensures Entitled(DeliverAll(w, id, h, chunks))
    decreases |chunks|
  {
    if chunks != [] {
      DeliverDataKeeps(w, id, h, chunks[0]);
      DeliverAllKeeps(DeliverData(w, id, h, chunks[0]), id, h, chunks[1..]);
    }
  }

  /** Nothing changed hands: subscriptions, handles, ledger and traces are those of `w`. */
  ghost predicate SameRights(w: World, w': World) {
    && w'.bound == w.bound && w'.conns == w.conns && w'.ledger == w.ledger
    && forall id :: id in w'.panes && w'.panes[id].subscribed ==>
         id in w.panes && w.panes[id].subscribed && w.panes[id].handle == w'.panes[id].handle
  }

  lemma RightsKeep(w: World, w': World)
    requires Entitled(w) && Wf(w') && SameRights(w, w')
    ensures Entitled(w')
    ensures forall h: nat :: MayHear(w, h) ==> MayHear(w', h)
  {
    forall id | id in w'.panes && w'.panes[id].subscribed ensures MayHear(w', w'.panes[id].handle) {
      assert MayHear(w, w.panes[id].handle);
    }
  }

  lemma RouteStatusKeeps(w: World, id: string)
    requires Entitled(w)
    ensures Entitled(RouteStatus(w, id))
  {
    if !w.destroyed && w.bound.Some? && id in w.panes && w.panes[id].subscribed {
      DeliverKeeps(w, Status(id, w.panes[id].handle));
    }
  }

  lemma OnDataKeeps(w: World, h: nat, text: string, replayFails: bool)
    requires Entitled(w)
    ensures Entitled(OnData(w, h, text, replayFails))
  {
    if Live(w, h) {
      var id := w.handles[h].id;
      var w1 := w.(handles := w.handles[h := w.handles[h].(emitted := w.handles[h].emitted + [text])],
                   panes := w.panes[id := FeedReplay(w.panes[id], text, replayFails)]);
      RightsKeep(w, w1);
      RouteDataKeeps(w1, id, text);
    }
  }

  lemma RouteDataKeeps(w: World, id: string, text: string)
    requires Entitled(w)
    ensures Entitled(RouteData(w, id, text))
  {
    if !w.destroyed && w.bound.Some? && id in w.panes && w.panes[id].subscribed {
      if w.panes[id].holds > 0 { RightsKeep(w, RouteData(w, id, text)); }
      else { DeliverDataKeeps(w, id, w.panes[id].handle, text); }
    }
  }

  lemma FlushHeldKeeps(w: World, id: string)
    requires Entitled(w) && id in w.panes
    ensures Entitled(FlushHeld(w, id))
  {
    var rec := w.panes[id];
    var w0 := w.(panes := w.panes[id := rec.(held := [])]);
    RightsKeep(w, w0);
    if rec.subscribed { DeliverAllKeeps(w0, id, rec.handle, rec.held); }
  }

  lemma FarewellKeeps(w: World, id: string, code: int)
    requires Entitled(w) && id in w.panes
    ensures Entitled(Farewell(w, id, code))
  {
    var rec, w1 := w.panes[id], Forget(w, id);
    RightsKeep(w, w1);
    if !w1.destroyed && w1.bound.Some? && rec.subscribed { DeliverKeeps(w1, Exit(id, rec.handle, code)); }
  }

  lemma PaneExitedKeeps(w: World, id: string, code: int, finalStatus: bool)
    requires Entitled(w)
    ensures Entitled(PaneExited(w, id, code, finalStatus))
  {
    if id in w.panes {
      FlushHeldKeeps(w, id);
      var w1 := FlushHeld(w, id);
      var w2 := w1.(gate := Prune(w1.gate, id));
      RightsKeep(w1, w2);
      RouteStatusKeeps(w2, id);
      FarewellKeeps(if finalStatus then RouteStatus(w2, id) else w2, id, code);
    }
  }

  lemma CallbackKeeps(w: World, e: HandleEvent)
    requires Entitled(w)
    ensures Entitled(Callback(w, e))
  {
    match e
    case Output(h, text, replayFails) => OnDataKeeps(w, h, text, replayFails);
    case StatusChange(h) => if Live(w, h) { RouteStatusKeeps(w, w.handles[h].id); }
    case Exited(h, code, finalStatus) =>
      if h < |w.handles| && w.handles[h].state.Running? {
        PaneExitedKeeps(w, w.handles[h].id, code, finalStatus);
        RightsKeep(PaneExited(w, w.handles[h].id, code, finalStatus), Callback(w, e));
      }
  }

  lemma {:induction false} CallbacksKeep(w: World, events: seq<HandleEvent>)
    requires Entitled(w)
    ensures Entitled(Callbacks(w, events))
    decreases |events|
  {
    if events != [] {
      CallbackKeeps(w, events[0]);
      CallbacksKeep(Callback(w, events[0]), events[1..]);
    }
  }

  // ---------------------------------------------------------------- verbs

  /** A new ledger entry of the holder: whatever was entitled still is, and its handle is too. */
  lemma EnteredKeeps(w: World, w': World, c: nat, h: nat, id: string, mark: nat)
    requires Entitled(w) && Wf(w') && w.bound == Some(c) && w'.bound == w.bound && w'.conns == w.conns
    requires w'.ledger == w.ledger + [Sub(c, h, |w.conns[c].trace|, mark)]
    requires forall other :: other in w'.panes && other != id ==> other in w.panes && w'.panes[other] == w.panes[other]
    requires id in w'.panes && w'.panes[id].handle == h
    ensures Entitled(w')
  {
    forall d | 0 <= d < |w'.conns| ensures TraceEntitled(w'.ledger, d, w'.conns[d].trace) {
      var trace := w.conns[d].trace;
      forall n | 0 <= n < |trace| && Concerns(trace[n]) ensures Listed(w'.ledger, d, trace[n].handle, n) {
        assert TraceEntitled(w.ledger, d, trace);
        ListedLonger(w.ledger, [Sub(c, h, |w.conns[c].trace|, mark)], d, trace[n].handle, n, n);
      }
    }
    forall other | other in w'.panes && w'.panes[other].subscribed ensures MayHear(w', w'.panes[other].handle) {
      if other == id {
        assert w'.ledger[|w.ledger|] == Sub(c, h, |w.conns[c].trace|, mark);
      } else {
        assert MayHear(w, w.panes[other].handle);
        var n := |w.conns[c].trace|;
        ListedLonger(w.ledger, [Sub(c, h, n, mark)], c, w.panes[other].handle, n, n);
      }
    }
  }

  lemma SpawnKeeps(w: World, c: nat, id: string, backendOk: bool, during: seq<HandleEvent>)
    requires Entitled(w) && (w.bound == Some(c) || w.destroyed) && c < |w.conns|
    ensures Entitled(SpawnPane(w, c, id, backendOk, during).0)
  {
    if !w.destroyed {
      if id in w.panes {
        SubscribedKeeps(w, c, id);
      } else {
        var w0 := Register(w, c, id);
        EnteredKeeps(w, w0, c, |w.handles|, id, 0);
        RouteStatusKeeps(w0, id);
        if backendOk { CallbacksKeep(RouteStatus(w0, id), during); }
        else { RightsKeep(RouteStatus(w0, id), Unregister(RouteStatus(w0, id), id, |w.handles|)); }
      }
    }
  }

  lemma SubscribedKeeps(w: World, c: nat, id: string)
    requires Entitled(w) && w.bound == Some(c) && c < |w.conns| && id in w.panes
    ensures Entitled(Subscribed(w, c, id))
  {
    var rec := w.panes[id];
    if !rec.subscribed {
      EnteredKeeps(w, Subscribed(w, c, id), c, rec.handle, id, |w.handles[rec.handle].emitted|);
    }
  }

  lemma StartAttachKeeps(w: World, c: nat, k: nat, id: string, fails: bool)
    requires Entitled(w) && (w.bound == Some(c) || id !in w.panes) && c < |w.conns|
    ensures Entitled(StartAttach(w, c, k, id, fails))
  {
    if id in w.panes && !w.panes[id].replayBroken && w.panes[id].holds == 0 {
      var rec := w.panes[id];
      if AskSnapshot(rec.replay, |w.attaches|).1.Some? && fails {
        SubscribedKeeps(w, c, id);
        RightsKeep(Subscribed(w, c, id), RefuseAttach(Subscribed(w, c, id), c, k, id, Internal));
      } else {
        EnteredKeeps(w, StartAttach(w, c, k, id, fails), c, rec.handle, id, |w.handles[rec.handle].emitted|);
      }
    } else {
      RightsKeep(w, StartAttach(w, c, k, id, fails));
    }
  }

  lemma ServeKeeps(w: World, c: nat, r: Request)
    requires Entitled(w) && c < |w.conns| && !r.AttachTo? && (w.bound == Some(c) || w.destroyed)
    ensures Entitled(Serve(w, c, r).0)
  {
    match r
    case Spawn(id, backendOk, during) => SpawnKeeps(w, c, id, backendOk, during);
    case Write(id, during) => CallbacksKeep(w, during);
    case Resize(id, during) => CallbacksKeep(w, during);
    case Kill(id, during) => CallbacksKeep(w, during);
    case _ =>
  }

  lemma AnswerKeeps(w: World, c: nat, k: nat, reply: Reply)
    requires Entitled(w) && c < |w.conns|
    ensures Entitled(Answer(w, c, k, reply))
  {
    var f := Response(k, reply);
    if !w.conns[c].ended { SentKeeps(w, c, Send(w.conns[c], f).0, f); }
  }

  lemma DispatchKeeps(w: World, c: nat, r: Request)
    requires Entitled(w) && c < |w.conns|
    requires w.bound == Some(c) || (w.destroyed && w.panes == map[])
    ensures Entitled(Dispatch(w, c, r))
  {
    var k, w0 := w.conns[c].requests, Numbered(w, c);
    SentKeeps(w, c, w0.conns[c], Hello);
    if r.AttachTo? {
      StartAttachKeeps(w0, c, k, r.id, r.snapshotFails);
    } else {
      ServeKeeps(w0, c, r);
      AnswerKeeps(Serve(w0, c, r).0, c, k, Serve(w0, c, r).1);
    }
  }

  // ---------------------------------------------------------------- answers, the lease, runs

  lemma ReleaseKeeps(w: World, a: Attach)
    requires Entitled(w)
    ensures Entitled(Release(w, a))
  {
    if a.gen == w.bindGen && a.id in w.panes && w.panes[a.id].handle == a.handle {
      var rec := w.panes[a.id];
      var open := rec.(holds := if rec.holds > 0 then rec.holds - 1 else 0);
      if open.holds > 0 {
        RightsKeep(w, Release(w, a));
      } else {
        var w1 := w.(panes := w.panes[a.id := open.(held := [])]);
        RightsKeep(w, w1);
        if rec.subscribed { DeliverAllKeeps(w1, a.id, a.handle, rec.held); }
      }
    }
  }

  lemma SettleKeeps(w: World, i: nat)
    requires Entitled(w)
    ensures Entitled(SettleAttach(w, i))
  {
    if i < |w.attaches| && (w.attaches[i].barrier.Ready? || w.attaches[i].barrier.Refused?) {
      var a := w.attaches[i];
      var closed := w.(attaches := w.attaches[i := a.(barrier := Settled(None))]);
      RightsKeep(w, closed);
      if a.barrier.Refused? || a.id !in w.panes || w.panes[a.id].handle != a.handle {
        AnswerKeeps(closed, a.conn, a.request, Failed(if a.barrier.Refused? then a.barrier.code else UnknownPane));
      } else if !w.conns[a.conn].ended {
        ReadySettleKeeps(w, i);
      }
    }
  }

  lemma ReadySettleKeeps(w: World, i: nat)
    requires Entitled(w) && i < |w.attaches| && w.attaches[i].barrier.Ready?
    requires var a := w.attaches[i]; a.id in w.panes && w.panes[a.id].handle == a.handle && !w.conns[a.conn].ended
    ensures Entitled(SettleAttach(w, i))
  {
    var a := w.attaches[i];
    var f := Response(a.request, Attached(a.barrier.snapshot));
    var (conn, sent) := Send(w.conns[a.conn], f);
    SentKeeps(w, a.conn, conn, f);
    var answer := if sent then Some(|w.conns[a.conn].trace|) else None;
    var w0 := w.(conns := w.conns[a.conn := conn]);
    var w1 := w.(attaches := w.attaches[i := a.(barrier := Settled(answer))], conns := w.conns[a.conn := conn]);
    RightsKeep(w0, w1);
    ReleaseKeeps(w1, a);
  }

  lemma RevokeKeeps(w: World, c: nat)
    requires Entitled(w) && c < |w.conns|
    ensures Entitled(Revoke(w, c))
  {
    if !w.conns[c].ended {
      var conn := Send(w.conns[c].(revoked := true, holdsLease := false), LeaseRevoked).0;
      SentKeeps(w, c, conn, LeaseRevoked);
      EndKeeps(w.(conns := w.conns[c := conn]), c);
    }
  }

  /** A bind finds no subscription to inherit. */
  lemma {:induction false} BindKeeps(w: World, r: Reconnect)
    requires Entitled(w) && r.conn < |w.conns|
    ensures Entitled(Bind(w, r))
    decreases r, 0
  {
    var w0 := w.(binds := w.binds + [r.conn]);
    RightsKeep(w, w0);
    if w0.bound.Some? {
      var incumbent := w0.bound.value;
      var w1 := UnbindInternal(w0);
      UnboundKeeps(w0);
      if !w1.conns[incumbent].ended {
        RevokeKeeps(w1, incumbent);
        ReconnectsKeep(Revoke(w1, incumbent), r.inner);
      }
      var w2 := if w1.conns[incumbent].ended then w1 else Reconnects(Revoke(w1, incumbent), r.inner);
      if w2.bound.Some? && !w2.conns[r.conn].ended {
        RevokeKeeps(w2, r.conn);
        ReconnectsKeep(Revoke(w2, r.conn), r.after);
      }
    }
  }

  lemma {:induction false} EstablishKeeps(w: World, r: Reconnect)
    requires Entitled(w)
    ensures Entitled(Establish(w, r))
    decreases r, 1
  {
    if r.conn < |w.conns| && !w.conns[r.conn].ended && !w.conns[r.conn].greeted {
      var c := r.conn;
      var w0 := w.(conns := w.conns[c := w.conns[c].(greeted := true)]);
      SentKeeps(w, c, w0.conns[c], Hello);
      BindKeeps(w0, r);
      SentKeeps(Bind(w0, r), c, Establish(w, r).conns[c], Hello);
    }
  }

  lemma {:induction false} ReconnectsKeep(w: World, rs: seq<Reconnect>)
    requires Entitled(w)
    ensures Entitled(Reconnects(w, rs))
    decreases rs, 0
  {
    if rs != [] {
      EstablishKeeps(w, rs[0]);
      ReconnectsKeep(Establish(w, rs[0]), rs[1..]);
    }
  }

  lemma ItemKeeps(w: World, c: nat, item: Item)
    requires Inv(w, Quiet) && Entitled(w) && c < |w.conns|
    ensures Entitled(OnItem(w, c, item))
  {
    var conn := w.conns[c];
    if conn.ended || conn.revoked {
    } else if item.Fatal? || (!conn.established && !item.GoodHello?) {
      EndKeeps(w, c);
    } else if !conn.established {
      EstablishKeeps(w, Reconnect(c, item.nested, item.after));
    } else {
      SpeakerHolds(w, c);
      SpokenKeeps(w, c, item);
    }
  }

  /** What an established connection may say. */
  lemma SpokenKeeps(w: World, c: nat, item: Item)
    requires Entitled(w) && c < |w.conns| && w.conns[c].established && !w.conns[c].ended && !w.conns[c].revoked
    requires (w.bound == Some(c) || (w.destroyed && w.panes == map[])) && !item.Fatal?
    ensures Entitled(OnItem(w, c, item))
  {
    match item
    case Req(request) => DispatchKeeps(w, c, request);
    case Ack(id, bytes) => FlowKeeps(w, OnAck(w.gate, id, bytes));
    case WindowSize(size, pane) => FlowKeeps(w, OnWindow(w.gate, size, pane));
    case _ =>
  }

  lemma FlowKeeps(w: World, answer: (GateState, Decisions))
    requires Entitled(w)
    ensures Entitled(Flow(w, answer))
  {
    RightsKeep(w, w.(gate := answer.0));
    DecisionsKeep(w.(gate := answer.0), answer.1);
  }

  lemma SetSinkKeeps(w: World, c: nat, sink: seq<bool>)
    requires Entitled(w) && c < |w.conns|
    ensures Entitled(w.(conns := w.conns[c := w.conns[c].(sink := sink)]))
  {
    SentKeeps(w, c, w.conns[c].(sink := sink), Hello);
  }

  lemma ParseKeeps(w: World, id: string)
    requires Entitled(w)
    ensures Entitled(Parse(w, id))
  {
    RightsKeep(w, Parse(w, id));
  }

  lemma AcceptKeeps(w: World)
    requires Entitled(w)
    ensures Entitled(w.(conns := w.conns + [NewConn]))
  {
    var w' := w.(conns := w.conns + [NewConn]);
    forall id | id in w'.panes && w'.panes[id].subscribed ensures MayHear(w', w'.panes[id].handle) {
      assert MayHear(w, w.panes[id].handle);
    }
  }

  lemma DestroyKeeps(w: World)
    requires Entitled(w)
    ensures Entitled(Destroy(w))
  {
    if !w.destroyed {
      UnboundKeeps(w);
      RightsKeep(UnbindInternal(w), Destroy(w));
    }
  }

  lemma StepKeeps(w: World, e: Event)
    requires Inv(w, Quiet) && Entitled(w)
    ensures Entitled(Step(w, e))
  {
    match e
    case Accept => AcceptKeeps(w);
    case SetSink(c, sink) => if c < |w.conns| { SetSinkKeeps(w, c, sink); }
    case Inbound(c, item) => if c < |w.conns| { ItemKeeps(w, c, item); }
    case EndOfInput(c) => if c < |w.conns| { EndKeeps(w, c); }
    case Backend(callback) => CallbackKeeps(w, callback);
    case Parsed(id) => ParseKeeps(w, id);
    case Settle(i) => SettleKeeps(w, i);
    case Shutdown => DestroyKeeps(w);
  }

  lemma {:induction false} RunEntitled(w: World, events: seq<Event>)
    requires Inv(w, Quiet) && Entitled(w)
    ensures Entitled(Run(w, events))
    decreases |events|
  {
    if events != [] {
      StepKeeps(w, events[0]);
      AgentRuns.StepKeeps(w, events[0]);
      RunEntitled(Step(w, events[0]), events[1..]);
    }
  }

  // ---------------------------------------------------------------- every subscription was asked for

  /** Event `e` is a request of connection `c` for pane `id`: a spawn, which may adopt, or an attach. */
  predicate AsksFor(e: Event, c: nat, id: string) {
    e.Inbound? && e.c == c && e.item.Req?
    && ((e.item.request.Spawn? && e.item.request.id == id) || (e.item.request.AttachTo? && e.item.request.id == id))
  }

  /** Asked for now, pane `id` is the one behind handle `h`: it runs it, or the spawn will. */
  predicate Names(w: World, id: string, h: nat) {
    if id in w.panes then w.panes[id].handle == h else h == |w.handles|
  }

  /** The step from `w` to `w'` entered at most one subscription: that of the connection that asked. */
  ghost predicate EntersOnlyTheAsked(w: World, e: Event, w': World) {
    && w.ledger <= w'.ledger && |w'.ledger| <= |w.ledger| + 1
    && (|w'.ledger| == |w.ledger| + 1 ==>
          var s := w'.ledger[|w.ledger|];
          && s.conn < |w.conns| && s.at == |w.conns[s.conn].trace|
          && s.handle < |w'.handles| && AsksFor(e, s.conn, w'.handles[s.handle].id)
          && Names(w, w'.handles[s.handle].id, s.handle))
  }

  lemma SubscribedEnters(w: World, c: nat, id: string)
    requires Inv(w, Quiet) && c < |w.conns| && id in w.panes
    ensures w.handles[w.panes[id].handle].id == id
    ensures var w', h := Subscribed(w, c, id), w.panes[id].handle;
      w'.ledger == w.ledger
      || w'.ledger == w.ledger + [Sub(c, h, |w.conns[c].trace|, |w.handles[h].emitted|)]
  {
    assert PaneOk(w, id, Quiet);
  }

  /** A spawn that finds nobody running the pane: one entry, for the next handle. */
  lemma FreshSpawnEnters(w: World, c: nat, id: string, backendOk: bool, during: seq<HandleEvent>)
    requires Wf(w) && c < |w.conns| && id !in w.panes && !w.destroyed
    ensures var w' := SpawnPane(w, c, id, backendOk, during).0;
      && w'.ledger == w.ledger + [Sub(c, |w.handles|, |w.conns[c].trace|, 0)]
      && |w.handles| < |w'.handles| && w'.handles[|w.handles|].id == id
  {
    var w0 := Register(w, c, id);
    var w1 := RouteStatus(w0, id);
    if backendOk {
      CallbacksLater(w1, during);
      assert HandleGoesOn(w1.handles[|w.handles|], Callbacks(w1, during).handles[|w.handles|]);
    }
  }

  lemma DispatchEnters(w: World, c: nat, r: Request)
    requires Inv(w, Quiet) && c < |w.conns|
    ensures EntersOnlyTheAsked(w, Inbound(c, Req(r)), Dispatch(w, c, r))
  {
    var w0 := Numbered(w, c);
    match r
    case Spawn(id, backendOk, during) =>
      if id in w.panes { SubscribedEnters(w, c, id); }
      else if !w.destroyed { FreshSpawnEnters(w0, c, id, backendOk, during); }
    case AttachTo(id, fails) => AttachEnters(w, c, id, fails);
    case _ =>
  }

  lemma AttachEnters(w: World, c: nat, id: string, fails: bool)
    requires Inv(w, Quiet) && c < |w.conns|
    ensures EntersOnlyTheAsked(w, Inbound(c, Req(AttachTo(id, fails))), Dispatch(w, c, AttachTo(id, fails)))
  {
    if id in w.panes { SubscribedEnters(w, c, id); }
  }

  lemma StepEnters(w: World, e: Event)
    requires Inv(w, Quiet)
    ensures EntersOnlyTheAsked(w, e, Step(w, e))
  {
    if e.Inbound? && e.c < |w.conns| && e.item.Req? { DispatchEnters(w, e.c, e.item.request); }
  }

  /** Event `p` of the run asked for pane `id`, then the one behind `h`, when `c` had been sent `at` frames. */
  ghost predicate AskedAt(events: seq<Event>, p: nat, c: nat, id: string, h: nat, at: nat) {
    && p < |events| && AsksFor(events[p], c, id)
    && c < |After(events[..p]).conns| && |After(events[..p]).conns[c].trace| == at
    && Names(After(events[..p]), id, h)
  }

  lemma AskedEarlier(events: seq<Event>, e: Event, p: nat, c: nat, id: string, h: nat, at: nat)
    requires AskedAt(events, p, c, id, h, at)
    ensures AskedAt(events + [e], p, c, id, h, at)
  {
    assert (events + [e])[..p] == events[..p];
  }

  /** The `n`-th subscription of the run was asked for by its own connection. */
  ghost predicate WasAsked(events: seq<Event>, n: nat)
    requires n < |After(events).ledger|
  {
    var w := After(events);
    var s := w.ledger[n];
    && s.handle < |w.handles|
    && exists p: nat :: AskedAt(events, p, s.conn, w.handles[s.handle].id, s.handle, s.at)
  }

  lemma {:induction false} EverySubWasAsked(events: seq<Event>, n: nat)
    requires n < |After(events).ledger|
    ensures WasAsked(events, n)
    decreases |events|
  {
    if events != [] {
      var front, e := events[..|events| - 1], events[|events| - 1];
      assert events == front + [e];
      AtMostOneMore(front, e);
      if n < |After(front).ledger| {
        EverySubWasAsked(front, n);
        StillAsked(front, e, n);
      } else {
        AskedJustNow(front, e);
      }
    }
  }

  lemma AtMostOneMore(front: seq<Event>, e: Event)
    ensures |After(front).ledger| <= |After(front + [e]).ledger| <= |After(front).ledger| + 1
  {
    AfterOneMore(front, e);
    EveryRun(front);
    StepEnters(After(front), e);
  }

  lemma StillAsked(front: seq<Event>, e: Event, n: nat)
    requires n < |After(front).ledger| && WasAsked(front, n)
    ensures n < |After(front + [e]).ledger| && WasAsked(front + [e], n)
  {
    AfterOneMore(front, e);
    var w, w' := After(front), After(front + [e]);
    StepLater(w, e);
    var s := w.ledger[n];
    assert HandleGoesOn(w.handles[s.handle], w'.handles[s.handle]);
    var p: nat :| AskedAt(front, p, s.conn, w.handles[s.handle].id, s.handle, s.at);
    AskedEarlier(front, e, p, s.conn, w.handles[s.handle].id, s.handle, s.at);
  }

  lemma AskedJustNow(front: seq<Event>, e: Event)
    requires |After(front + [e]).ledger| == |After(front).ledger| + 1
    ensures WasAsked(front + [e], |After(front).ledger|)
  {
    AfterOneMore(front, e);
    EveryRun(front);
    StepEnters(After(front), e);
    assert (front + [e])[..|front|] == front;
    var w, w' := After(front), After(front + [e]);
    var s := w'.ledger[|w.ledger|];
    assert AskedAt(front + [e], |front|, s.conn, w'.handles[s.handle].id, s.handle, s.at);
  }

  /**
   * Over every run, a frame about a pane is sent to a connection only after that connection itself
   * asked for that very pane, by a spawn, an adoption or an attach.
   */
  lemma PushesFollowARequest(events: seq<Event>, c: nat, n: nat)
    requires c < |After(events).conns| && n < |After(events).conns[c].trace|
    requires Concerns(After(events).conns[c].trace[n])
    ensures var f := After(events).conns[c].trace[n];
      exists p: nat, at: nat :: at <= n && AskedAt(events, p, c, f.id, f.handle, at)
  {
    var w := After(events);
    var f := w.conns[c].trace[n];
    RunEntitled(Init, events);
    FrameTrace(events, c);
    assert TraceEntitled(w.ledger, c, w.conns[c].trace);
    var k :| 0 <= k < |w.ledger| && w.ledger[k].conn == c && w.ledger[k].handle == f.handle && w.ledger[k].at <= n;
    EverySubWasAsked(events, k);
    var p: nat :| AskedAt(events, p, c, f.id, f.handle, w.ledger[k].at);
  }

  /** A pane the store would push from now is one the holder asked for. */
  lemma SubscribedMeansAsked(events: seq<Event>, id: string)
    requires id in After(events).panes && After(events).panes[id].subscribed
    ensures var w := After(events);
      && w.bound.Some? && w.bound.value < |w.conns|
      && exists p: nat, at: nat ::
           at <= |w.conns[w.bound.value].trace| && AskedAt(events, p, w.bound.value, id, w.panes[id].handle, at)
  {
    var w := After(events);
    EveryRun(events);
    RunEntitled(Init, events);
    assert PaneOk(w, id, Quiet);
    var c, h := w.bound.value, w.panes[id].handle;
    assert MayHear(w, h);
    var k :| 0 <= k < |w.ledger| && w.ledger[k].conn == c && w.ledger[k].handle == h
             && w.ledger[k].at <= |w.conns[c].trace|;
    EverySubWasAsked(events, k);
    var p: nat :| AskedAt(events, p, c, id, h, w.ledger[k].at);
  }
}
