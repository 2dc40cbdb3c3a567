/** Every request gets the answer that fits it, and a healthy attach gets its snapshot. */
module AgentAnswers {
  import opened Chunks
  import opened FlowControl
  import opened Replay
  import opened AgentWorld
  import opened AgentInvariant
  import opened AgentHistory
  import opened AgentRuns
  import opened AgentTheorems

  // ---------------------------------------------------------------- the responses of a trace

  /** The responses a trace carries, in order. */
  function Responses(trace: seq<Frame>): seq<Frame> {
    if trace == [] then []
    else
      var last := trace[|trace| - 1];
      Responses(trace[..|trace| - 1]) + if last.Response? then [last] else []
  }

  lemma AnswersSnoc(trace: seq<Frame>, f: Frame)
    ensures Responses(trace + [f]) == Responses(trace) + if f.Response? then [f] else []
  {
    assert (trace + [f])[..|trace|] == trace;
  }

  lemma {:induction false} ResponseIsListed(trace: seq<Frame>, n: nat)
    requires n < |trace| && trace[n].Response?
    ensures trace[n] in Responses(trace)
    decreases |trace|
  {
    if n < |trace| - 1 { ResponseIsListed(trace[..|trace| - 1], n); }
  }

  // ---------------------------------------------------------------- steps that answer nothing

  ghost predicate SameAnswers(w: World, w': World) {
    && |w.conns| <= |w'.conns|
    && forall c :: 0 <= c < |w.conns| ==> Responses(w'.conns[c].trace) == Responses(w.conns[c].trace)
  }

  /** An attach in flight stays in flight; a refused one stays refused. */
  ghost predicate SameOpen(w: World, w': World) {
    && |w.attaches| == |w'.attaches|
    && forall i :: 0 <= i < |w.attaches| ==>
         && w'.attaches[i].(barrier := Waiting) == w.attaches[i].(barrier := Waiting)
         && (Open(w.attaches[i]) ==> Open(w'.attaches[i]))
         && (!Open(w.attaches[i]) ==> w'.attaches[i] == w.attaches[i])
  }

  /** A pane that is gone never comes back under its old handle. */
  ghost predicate NoneRevived(w: World, w': World) {
    && |w.handles| <= |w'.handles|
    && forall h: nat :: h < |w.handles| && Live(w', h) ==> Live(w, h)
  }

  ghost predicate Calm(w: World, w': World) {
    SameAnswers(w, w') && SameOpen(w, w') && NoneRevived(w, w')
  }

  lemma CalmTransitive(u: World, v: World, w: World)
    requires Calm(u, v) && Calm(v, w)
    ensures Calm(u, w)
  {
    forall i | 0 <= i < |u.attaches|
      ensures w.attaches[i].(barrier := Waiting) == u.attaches[i].(barrier := Waiting)
      ensures Open(u.attaches[i]) ==> Open(w.attaches[i])
      ensures !Open(u.attaches[i]) ==> w.attaches[i] == u.attaches[i]
    {
      assert v.attaches[i].(barrier := Waiting) == u.attaches[i].(barrier := Waiting);
    }
  }

  /** Only one connection moved, and it was sent no response. */
  lemma SentIsCalm(w: World, c: nat, conn: Conn, f: Frame)
    requires Wf(w) && c < |w.conns| && !f.Response?
    requires conn.trace == w.conns[c].trace || conn.trace == w.conns[c].trace + [f]
    ensures Calm(w, w.(conns := w.conns[c := conn]))
  {
    AnswersSnoc(w.conns[c].trace, f);
  }

  lemma UnbindIsCalm(w: World)
    requires Wf(w)
    ensures Calm(w, UnbindInternal(w))
  {
  }

  lemma EndIsCalm(w: World, c: nat)
    requires Wf(w) && c < |w.conns|
    ensures Calm(w, End(w, c))
  {
  }

  lemma DeliverIsCalm(w: World, f: Frame)
    requires Wf(w) && !f.Response?
    ensures Calm(w, Deliver(w, f))
  {
    if w.bound.Some? && !w.conns[w.bound.value].ended {
      var c := w.bound.value;
      var (conn, sent) := Send(w.conns[c], f);
      var w1 := w.(conns := w.conns[c := conn]);
      SentIsCalm(w, c, conn, f);
      if !sent {
        UnbindIsCalm(w1);
        EndIsCalm(UnbindInternal(w1), c);
        CalmTransitive(w, w1, UnbindInternal(w1));
        CalmTransitive(w, UnbindInternal(w1), Deliver(w, f));
      }
    }
  }

  lemma DeliverDataIsCalm(w: World, id: string, h: nat, text: string)
    requires Wf(w)
    ensures Calm(w, DeliverData(w, id, h, text))
  {
    DeliverIsCalm(w, Data(id, h, text));
  }

  lemma {:induction false} DeliverAllIsCalm(w: World, id: string, h: nat, chunks: seq<string>)
    requires Wf(w)
    ensures Calm(w, DeliverAll(w, id, h, chunks))
    decreases |chunks|
  {
    if chunks != [] {
      var w1 := DeliverData(w, id, h, chunks[0]);
      DeliverDataIsCalm(w, id, h, chunks[0]);
      DeliverAllIsCalm(w1, id, h, chunks[1..]);
      CalmTransitive(w, w1, DeliverAll(w, id, h, chunks));
    }
  }

  lemma RouteStatusIsCalm(w: World, id: string)
    requires Wf(w)
    ensures Calm(w, RouteStatus(w, id))
  {
    if id in w.panes { DeliverIsCalm(w, Status(id, w.panes[id].handle)); }
  }

  lemma OnDataIsCalm(w: World, h: nat, text: string, replayFails: bool)
    requires Wf(w)
    ensures Calm(w, OnData(w, h, text, replayFails))
  {
    if Live(w, h) {
      var id := w.handles[h].id;
      var w1 := w.(handles := w.handles[h := w.handles[h].(emitted := w.handles[h].emitted + [text])],
                   panes := w.panes[id := FeedReplay(w.panes[id], text, replayFails)]);
      assert Calm(w, w1);
      RouteDataIsCalm(w1, id, text);
      CalmTransitive(w, w1, RouteData(w1, id, text));
    }
  }

  lemma RouteDataIsCalm(w: World, id: string, text: string)
    requires Wf(w)
    ensures Calm(w, RouteData(w, id, text))
  {
    if id in w.panes { DeliverDataIsCalm(w, id, w.panes[id].handle, text); }
  }

  lemma FlushHeldIsCalm(w: World, id: string)
    requires Wf(w) && id in w.panes
    ensures Calm(w, FlushHeld(w, id))
  {
    var rec := w.panes[id];
    var w0 := w.(panes := w.panes[id := rec.(held := [])]);
    assert Calm(w, w0);
    DeliverAllIsCalm(w0, id, rec.handle, rec.held);
    CalmTransitive(w, w0, DeliverAll(w0, id, rec.handle, rec.held));
  }

  lemma ForgetIsCalm(w: World, id: string)
    requires Wf(w) && id in w.panes
    ensures Calm(w, Forget(w, id))
  {
  }

  lemma FarewellIsCalm(w: World, id: string, code: int)
    requires Wf(w) && id in w.panes
    ensures Calm(w, Farewell(w, id, code))
  {
    var w1, f := Forget(w, id), Exit(id, w.panes[id].handle, code);
    ForgetIsCalm(w, id);
    DeliverIsCalm(w1, f);
    CalmTransitive(w, w1, Deliver(w1, f));
  }

  lemma PaneExitedIsCalm(w: World, id: string, code: int, finalStatus: bool)
    requires Wf(w)
    ensures Calm(w, PaneExited(w, id, code, finalStatus))
  {
    if id in w.panes {
      var w1 := FlushHeld(w, id);
      FlushHeldIsCalm(w, id);
      var w2 := w1.(gate := Prune(w1.gate, id));
      assert Calm(w1, w2);
      CalmTransitive(w, w1, w2);
      var w3 := if finalStatus then RouteStatus(w2, id) else w2;
      RouteStatusIsCalm(w2, id);
      CalmTransitive(w, w2, w3);
      FarewellIsCalm(w3, id, code);
      CalmTransitive(w, w3, Farewell(w3, id, code));
    }
  }

  lemma CallbackIsCalm(w: World, e: HandleEvent)
    requires Wf(w)
    ensures Calm(w, Callback(w, e))
  {
    match e
    case Output(h, text, replayFails) => OnDataIsCalm(w, h, text, replayFails);
    case StatusChange(h) => if Live(w, h) { RouteStatusIsCalm(w, w.handles[h].id); }
    case Exited(h, code, finalStatus) =>
      if h < |w.handles| && w.handles[h].state.Running? {
        var w1 := PaneExited(w, w.handles[h].id, code, finalStatus);
        PaneExitedIsCalm(w, w.handles[h].id, code, finalStatus);
        StateIsCalm(w1, h, Gone(code));
        CalmTransitive(w, w1, Callback(w, e));
      }
  }

  lemma StateIsCalm(w: World, h: nat, state: HandleState)
    requires h < |w.handles|
    ensures Calm(w, w.(handles := w.handles[h := w.handles[h].(state := state)]))
  {
  }

  lemma {:induction false} CallbacksAreCalm(w: World, events: seq<HandleEvent>)
    requires Wf(w)
    ensures Calm(w, Callbacks(w, events))
    decreases |events|
  {
    if events != [] {
      CallbackIsCalm(w, events[0]);
      CallbacksAreCalm(Callback(w, events[0]), events[1..]);
      CalmTransitive(w, Callback(w, events[0]), Callbacks(w, events));
    }
  }

  lemma RegisterIsCalm(w: World, c: nat, id: string)
    requires Wf(w) && c < |w.conns| && id !in w.panes
    ensures Calm(w, RouteStatus(Register(w, c, id), id))
  {
    var w0 := Register(w, c, id);
    assert Calm(w, w0);
    RouteStatusIsCalm(w0, id);
    CalmTransitive(w, w0, RouteStatus(w0, id));
  }

  lemma UnregisterIsCalm(w: World, id: string, h: nat)
    requires Wf(w) && h < |w.handles| && id in w.panes
    ensures Calm(w, Unregister(w, id, h))
  {
    ForgetIsCalm(w, id);
    StateIsCalm(Forget(w, id), h, NeverRan);
    CalmTransitive(w, Forget(w, id), Unregister(w, id, h));
  }

  lemma SpawnIsCalm(w: World, c: nat, id: string, backendOk: bool, during: seq<HandleEvent>)
    requires Wf(w) && c < |w.conns|
    ensures Calm(w, SpawnPane(w, c, id, backendOk, during).0)
  {
    if !w.destroyed && id !in w.panes {
      var w1 := RouteStatus(Register(w, c, id), id);
      RegisterIsCalm(w, c, id);
      if backendOk {
        CallbacksAreCalm(w1, during);
        CalmTransitive(w, w1, Callbacks(w1, during));
      } else {
        UnregisterIsCalm(w1, id, |w.handles|);
        CalmTransitive(w, w1, Unregister(w1, id, |w.handles|));
      }
    }
  }

  lemma ServeIsCalm(w: World, c: nat, r: Request)
    requires Wf(w) && c < |w.conns| && !r.AttachTo?
    ensures Calm(w, Serve(w, c, r).0)
  {
    match r
    case Spawn(id, backendOk, during) => SpawnIsCalm(w, c, id, backendOk, during);
    case Write(id, during) => CallbacksAreCalm(w, during);
    case Resize(id, during) => CallbacksAreCalm(w, during);
    case Kill(id, during) => CallbacksAreCalm(w, during);
    case _ =>
  }

  lemma ReleaseIsCalm(w: World, a: Attach)
    requires Wf(w)
    ensures Calm(w, Release(w, a))
  {
    if a.id in w.panes {
      var rec := w.panes[a.id];
      var open := rec.(holds := if rec.holds > 0 then rec.holds - 1 else 0);
      var w1 := w.(panes := w.panes[a.id := open.(held := [])]);
      assert Calm(w, w1);
      DeliverAllIsCalm(w1, a.id, a.handle, rec.held);
      CalmTransitive(w, w1, DeliverAll(w1, a.id, a.handle, rec.held));
    }
  }

  lemma RevokeIsCalm(w: World, c: nat)
    requires Wf(w) && c < |w.conns|
    ensures Calm(w, Revoke(w, c))
  {
    if !w.conns[c].ended {
      var conn := Send(w.conns[c].(revoked := true, holdsLease := false), LeaseRevoked).0;
      var w1 := w.(conns := w.conns[c := conn]);
      SentIsCalm(w, c, conn, LeaseRevoked);
      EndIsCalm(w1, c);
      CalmTransitive(w, w1, End(w1, c));
    }
  }

  lemma {:induction false} ShutdownIsCalm(w: World, c: nat, rs: seq<Reconnect>)
    requires Wf(w) && c < |w.conns|
    ensures Calm(w, Reconnects(Revoke(w, c), rs))
    decreases rs, 1
  {
    RevokeIsCalm(w, c);
    ReconnectsAreCalm(Revoke(w, c), rs);
    CalmTransitive(w, Revoke(w, c), Reconnects(Revoke(w, c), rs));
  }

  lemma {:induction false} BindIsCalm(w: World, r: Reconnect)
    requires Wf(w) && r.conn < |w.conns|
    ensures Calm(w, Bind(w, r))
    decreases r, 0
  {
    var w0 := w.(binds := w.binds + [r.conn]);
    if w0.bound.Some? {
      var incumbent := w0.bound.value;
      var w1 := UnbindInternal(w0);
      assert Calm(w, w1);
      var w2 := if w1.conns[incumbent].ended then w1 else Reconnects(Revoke(w1, incumbent), r.inner);
      if !w1.conns[incumbent].ended { ShutdownIsCalm(w1, incumbent, r.inner); }
      CalmTransitive(w, w1, w2);
      if w2.bound.Some? && !w2.conns[r.conn].ended {
        ShutdownIsCalm(w2, r.conn, r.after);
        CalmTransitive(w, w2, Reconnects(Revoke(w2, r.conn), r.after));
      }
    }
  }

  lemma {:induction false} EstablishIsCalm(w: World, r: Reconnect)
    requires Wf(w)
    ensures Calm(w, Establish(w, r))
    decreases r, 1
  {
    if r.conn < |w.conns| && !w.conns[r.conn].ended && !w.conns[r.conn].greeted {
      var c := r.conn;
      var w0 := w.(conns := w.conns[c := w.conns[c].(greeted := true)]);
      SentIsCalm(w, c, w0.conns[c], Hello);
      BindIsCalm(w0, r);
      CalmTransitive(w, w0, Bind(w0, r));
      SentIsCalm(Bind(w0, r), c, Establish(w, r).conns[c], Hello);
      CalmTransitive(w, Bind(w0, r), Establish(w, r));
    }
  }

  lemma {:induction false} ReconnectsAreCalm(w: World, rs: seq<Reconnect>)
    requires Wf(w)
    ensures Calm(w, Reconnects(w, rs))
    decreases rs, 0
  {
    if rs != [] {
      EstablishIsCalm(w, rs[0]);
      ReconnectsAreCalm(Establish(w, rs[0]), rs[1..]);
      CalmTransitive(w, Establish(w, rs[0]), Reconnects(w, rs));
    }
  }

  lemma DestroyIsCalm(w: World)
    requires Wf(w)
    ensures Calm(w, Destroy(w))
  {
  }

  lemma ParseIsCalm(w: World, id: string)
    requires Wf(w)
    ensures Calm(w, Parse(w, id))
  {
  }

  // ---------------------------------------------------------------- what a step answers

  /** Connection `c` was sent this one response, everybody else none. */
  ghost predicate Answers1(w: World, w': World, c: nat, f: Frame) {
    && c < |w.conns| <= |w'.conns|
    && (forall d :: 0 <= d < |w.conns| && d != c ==> Responses(w'.conns[d].trace) == Responses(w.conns[d].trace))
    && Responses(w'.conns[c].trace) == Responses(w.conns[c].trace) + [f]
  }

  // ---------------------------------------------------------------- which answer fits which request

  /** Refused at once: no such pane, one with a broken replay or an open window, or a serializer that throws. */
  ghost predicate RefusalFits(asked: World, id: string, fails: bool, code: ErrorCode) {
    if id !in asked.panes then code == UnknownPane
    else if asked.panes[id].replayBroken || WindowOn(asked, asked.panes[id].handle) then code == Internal
    else fails && code == Internal
  }

  /** `now` is later than `asked`; the pane that was asked for may have gone in between. */
  ghost predicate AttachFits(asked: World, id: string, fails: bool, now: World, reply: Reply) {
    match reply
    case Attached(snapshot) =>
      && id in asked.panes && asked.panes[id].handle < |asked.handles|
      && !asked.panes[id].replayBroken && !WindowOn(asked, asked.panes[id].handle)
      && snapshot == Serialized(Flatten(asked.handles[asked.panes[id].handle].emitted))
    case Failed(code) =>
      || RefusalFits(asked, id, fails, code)
      || (id in asked.panes && asked.panes[id].handle < |now.handles|
          && !Live(now, asked.panes[id].handle) && code == UnknownPane)
    case _ => false
  }

  ghost predicate Fits(asked: World, r: Request, now: World, reply: Reply) {
    match r
    case Malformed => reply == Failed(BadParams)
    case UnknownVerb => reply == Failed(UnknownMethod)
    case Spawn(id, backendOk, _) =>
      reply == if asked.destroyed then Failed(SpawnFailed) else if id in asked.panes then Spawned(true)
               else if backendOk then Spawned(false) else Failed(SpawnFailed)
    case Write(id, _) => reply == if id in asked.panes then Done else Failed(UnknownPane)
    case Resize(id, _) => reply == if id in asked.panes then Done else Failed(UnknownPane)
    case Kill(id, _) => reply == if id in asked.panes then Done else Failed(UnknownPane)
    case Sessions =>
      && reply.Inventory? && reply.attached.Keys == asked.panes.Keys
      && forall id :: id in asked.panes ==> (reply.attached[id] <==> asked.panes[id].subscribed)
    case AttachTo(id, fails) => AttachFits(asked, id, fails, now, reply)
  }

  lemma FitsLater(asked: World, r: Request, now: World, later: World, reply: Reply)
    requires Fits(asked, r, now, reply) && NoneRevived(now, later)
    ensures Fits(asked, r, later, reply)
  {
  }

  lemma ServedFits(w: World, c: nat, r: Request, now: World)
    requires Inv(w, Quiet) && c < |w.conns| && !r.AttachTo?
    ensures Fits(w, r, now, Serve(Numbered(w, c), c, r).1)
  {
    if r.Sessions? {
      forall id | id in w.panes ensures w.panes[id].subscribed ==> w.bound.Some? { assert PaneOk(w, id, Quiet); }
    }
  }

  lemma NumberedIsCalm(w: World, c: nat)
    requires Wf(w) && c < |w.conns|
    ensures Calm(w, Numbered(w, c))
  {
    SentIsCalm(w, c, Numbered(w, c).conns[c], Hello);
  }

  lemma AnswerAnswers(w: World, c: nat, k: nat, reply: Reply)
    requires Wf(w) && c < |w.conns|
    ensures SameAnswers(w, Answer(w, c, k, reply)) || Answers1(w, Answer(w, c, k, reply), c, Response(k, reply))
    ensures SameOpen(w, Answer(w, c, k, reply)) && NoneRevived(w, Answer(w, c, k, reply))
  {
    if !w.conns[c].ended { SendAnswers(w, c, Response(k, reply)); }
  }

  /** The one frame that goes out on a connection, or is lost, is the one response of the step. */
  lemma SendAnswers(w: World, c: nat, f: Frame)
    requires c < |w.conns| && f.Response?
    ensures var (conn, sent) := Send(w.conns[c], f);
      var w' := w.(conns := w.conns[c := conn]);
      && (if sent then Answers1(w, w', c, f) else SameAnswers(w, w') && conn.lost > w.conns[c].lost)
  {
    var (conn, sent) := Send(w.conns[c], f);
    if sent {
      assert conn.trace == w.conns[c].trace + [f];
      AnswersSnoc(w.conns[c].trace, f);
    } else {
      assert conn.trace == w.conns[c].trace;
    }
  }

  /** Calm before, one answer after. */
  lemma CalmThenAnswer(u: World, v: World, w: World, c: nat, f: Frame)
    requires Calm(u, v) && SameOpen(v, w) && NoneRevived(v, w) && c < |u.conns|
    requires SameAnswers(v, w) || Answers1(v, w, c, f)
    ensures SameOpen(u, w) && NoneRevived(u, w)
    ensures SameAnswers(u, w) || Answers1(u, w, c, f)
  {
    forall i | 0 <= i < |u.attaches|
      ensures w.attaches[i].(barrier := Waiting) == u.attaches[i].(barrier := Waiting)
      ensures Open(u.attaches[i]) ==> Open(w.attaches[i])
      ensures !Open(u.attaches[i]) ==> w.attaches[i] == u.attaches[i]
    {
      assert v.attaches[i].(barrier := Waiting) == u.attaches[i].(barrier := Waiting);
    }
  }

  lemma DispatchAnswers(w: World, c: nat, r: Request)
    requires Wf(w) && c < |w.conns| && !r.AttachTo?
    ensures var w', f := Dispatch(w, c, r), Response(w.conns[c].requests, Serve(Numbered(w, c), c, r).1);
      && SameOpen(w, w') && NoneRevived(w, w')
      && (SameAnswers(w, w') || Answers1(w, w', c, f))
  {
    var k, w0 := w.conns[c].requests, Numbered(w, c);
    var (w1, reply) := Serve(w0, c, r);
    NumberedIsCalm(w, c);
    ServeIsCalm(w0, c, r);
    CalmTransitive(w, w0, w1);
    AnswerAnswers(w1, c, k, reply);
    CalmThenAnswer(w, w1, Answer(w1, c, k, reply), c, Response(k, reply));
  }

  // ---------------------------------------------------------------- attaches: asked, settled

  /** The record of an attach that was not refused, as seen from `w`, tells what the request found. */
  ghost predicate OpenFits(asked: World, w: World, a: Attach) {
    && a.id in asked.panes && asked.panes[a.id].handle == a.handle && a.handle < |asked.handles|
    && !asked.panes[a.id].replayBroken && !WindowOn(asked, a.handle)
    && SubMatches(w, a) && w.handles[a.handle].emitted[..w.ledger[a.sub].mark] == asked.handles[a.handle].emitted
  }

  ghost predicate BarrierFits(asked: World, fails: bool, w: World, a: Attach) {
    && (a.barrier.Refused? ==> RefusalFits(asked, a.id, fails, a.barrier.code))
    && (Open(a) ==> OpenFits(asked, w, a))
  }

  /** Only panes with an open window have their hold count up. */
  lemma HeldMeansWindow(w: World, id: string)
    requires Inv(w, Quiet) && id in w.panes
    ensures w.panes[id].holds > 0 <==> WindowOn(w, w.panes[id].handle)
  {
    assert PaneOk(w, id, Quiet);
    var h := w.panes[id].handle;
    if WindowOn(w, h) {
      var i: nat :| HoldWindow(w, i) && w.attaches[i].handle == h;
      assert AttachOk(w, i, Quiet);
    }
  }

  /** The step of an attach request: one record more, which tells what was found, and no answer yet. */
  lemma StartAttachTells(w: World, c: nat, id: string, fails: bool)
    requires Inv(w, Quiet) && c < |w.conns|
    ensures var w', i := Dispatch(w, c, AttachTo(id, fails)), |w.attaches|;
      && SameAnswers(w, w') && NoneRevived(w, w') && |w'.attaches| == i + 1 && w'.attaches[..i] == w.attaches
      && w'.attaches[i].conn == c && w'.attaches[i].request == w.conns[c].requests && w'.attaches[i].id == id
      && BarrierFits(w, fails, w', w'.attaches[i])
  {
    if id in w.panes {
      HeldMeansWindow(w, id);
      assert PaneOk(w, id, Quiet);
      if !w.panes[id].replayBroken && w.panes[id].holds == 0 { HealthyAttachTells(w, c, id, fails); }
    }
  }

  lemma HealthyAttachTells(w: World, c: nat, id: string, fails: bool)
    requires Wf(w) && c < |w.conns| && id in w.panes && !w.panes[id].replayBroken && w.panes[id].holds == 0
    requires !WindowOn(w, w.panes[id].handle)
    ensures var w', i := Dispatch(w, c, AttachTo(id, fails)), |w.attaches|;
      && SameAnswers(w, w') && NoneRevived(w, w') && |w'.attaches| == i + 1 && w'.attaches[..i] == w.attaches
      && w'.attaches[i].conn == c && w'.attaches[i].request == w.conns[c].requests && w'.attaches[i].id == id
      && BarrierFits(w, fails, w', w'.attaches[i])
  {
    var emitted := w.handles[w.panes[id].handle].emitted;
    assert emitted[..|emitted|] == emitted;
  }

  /** What the continuation of an attach answers. */
  ghost predicate SettleFits(w: World, a: Attach, reply: Reply) {
    match a.barrier
    case Refused(code) => reply == Failed(code)
    case Ready(snapshot) => reply == if Live(w, a.handle) then Attached(snapshot) else Failed(UnknownPane)
    case _ => false
  }

  /** One attach is closed; the others are as they were. */
  ghost predicate Closes(w: World, w': World, i: nat) {
    && i < |w.attaches| == |w'.attaches| && w'.attaches[i].barrier.Settled?
    && w'.attaches[i].(barrier := Waiting) == w.attaches[i].(barrier := Waiting)
    && forall j :: 0 <= j < |w.attaches| && j != i ==>
         && w'.attaches[j].(barrier := Waiting) == w.attaches[j].(barrier := Waiting)
         && (Open(w.attaches[j]) ==> Open(w'.attaches[j]))
         && (!Open(w.attaches[j]) ==> w'.attaches[j] == w.attaches[j])
  }

  ghost predicate CanSettle(w: World, i: nat) {
    i < |w.attaches| && (w.attaches[i].barrier.Ready? || w.attaches[i].barrier.Refused?)
  }

  /** A connection that has not ended is answered, or loses the frame. */
  ghost predicate AnsweredOrLost(w: World, w': World, i: nat)
    requires i < |w.attaches| && i < |w'.attaches| && w'.attaches[i].barrier.Settled?
    requires w.attaches[i].conn < |w.conns| <= |w'.conns|
  {
    var a := w.attaches[i];
    a.barrier.Ready? && Live(w, a.handle) && !w.conns[a.conn].ended ==>
      w'.attaches[i].barrier.answer.Some? || w'.conns[a.conn].lost > w.conns[a.conn].lost
  }

  lemma SettleAnswers(w: World, i: nat)
    requires Inv(w, Quiet) && CanSettle(w, i)
    ensures var w', a := SettleAttach(w, i), w.attaches[i];
      && a.conn < |w.conns| <= |w'.conns| && Closes(w, w', i) && NoneRevived(w, w') && AnsweredOrLost(w, w', i)
      && (SameAnswers(w, w')
          || exists reply :: SettleFits(w, a, reply) && Answers1(w, w', a.conn, Response(a.request, reply)))
  {
    var a := w.attaches[i];
    assert AttachOk(w, i, Quiet);
    if a.barrier.Refused? || !Live(w, a.handle) {
      SettleErrorAnswers(w, i);
      assert SettleFits(w, a, Failed(if a.barrier.Refused? then a.barrier.code else UnknownPane));
    } else if !w.conns[a.conn].ended {
      SettleLiveAnswers(w, i);
      assert SettleFits(w, a, Attached(a.barrier.snapshot));
    }
  }

  lemma SettleErrorAnswers(w: World, i: nat)
    requires Wf(w) && CanSettle(w, i)
    requires var a := w.attaches[i];
      a.barrier.Refused? || !(a.id in w.panes && w.panes[a.id].handle == a.handle)
    ensures var w', a := SettleAttach(w, i), w.attaches[i];
      var reply := Failed(if a.barrier.Refused? then a.barrier.code else UnknownPane);
      && |w.conns| <= |w'.conns| && Closes(w, w', i) && NoneRevived(w, w')
      && (SameAnswers(w, w') || Answers1(w, w', a.conn, Response(a.request, reply)))
  {
    var a := w.attaches[i];
    var w1 := w.(attaches := w.attaches[i := a.(barrier := Settled(None))]);
    AnswerAnswers(w1, a.conn, a.request, Failed(if a.barrier.Refused? then a.barrier.code else UnknownPane));
  }

  /** The response is out or lost; the window is not drained yet. */
  function Replied(w: World, i: nat): (w': World)
    requires Wf(w) && i < |w.attaches| && w.attaches[i].barrier.Ready?
    ensures Wf(w')
  {
    var a := w.attaches[i];
    var (conn, sent) := Send(w.conns[a.conn], Response(a.request, Attached(a.barrier.snapshot)));
    var answer := if sent then Some(|w.conns[a.conn].trace|) else None;
    w.(attaches := w.attaches[i := a.(barrier := Settled(answer))], conns := w.conns[a.conn := conn])
  }

  lemma RepliedAnswers(w: World, i: nat)
    requires Wf(w) && i < |w.attaches| && w.attaches[i].barrier.Ready?
    ensures var w', a := Replied(w, i), w.attaches[i];
      && Closes(w, w', i) && NoneRevived(w, w') && |w'.conns| == |w.conns|
      && (w'.attaches[i].barrier.answer.Some? || w'.conns[a.conn].lost > w.conns[a.conn].lost)
      && (SameAnswers(w, w') || Answers1(w, w', a.conn, Response(a.request, Attached(a.barrier.snapshot))))
  {
    var a := w.attaches[i];
    SendAnswers(w, a.conn, Response(a.request, Attached(a.barrier.snapshot)));
  }

  lemma SettleLiveAnswers(w: World, i: nat)
    requires Wf(w) && CanSettle(w, i) && w.attaches[i].barrier.Ready?
    requires var a := w.attaches[i]; a.id in w.panes && w.panes[a.id].handle == a.handle && !w.conns[a.conn].ended
    ensures var w', a := SettleAttach(w, i), w.attaches[i];
      && |w.conns| <= |w'.conns| && Closes(w, w', i) && NoneRevived(w, w')
      && (w'.attaches[i].barrier.answer.Some? || w'.conns[a.conn].lost > w.conns[a.conn].lost)
      && (SameAnswers(w, w') || Answers1(w, w', a.conn, Response(a.request, Attached(a.barrier.snapshot))))
  {
    var a, w1 := w.attaches[i], Replied(w, i);
    RepliedAnswers(w, i);
    ReleaseIsCalm(w1, a);
    ReleaseLater(w1, a);
    assert ConnGoesOn(w1.conns[a.conn], Release(w1, a).conns[a.conn]);
    ClosedThenCalm(w, w1, Release(w1, a), i);
  }

  lemma ClosedThenCalm(w: World, w1: World, w': World, i: nat)
    requires Closes(w, w1, i) && NoneRevived(w, w1) && Calm(w1, w')
    ensures Closes(w, w', i) && NoneRevived(w, w') && w'.attaches[i] == w1.attaches[i]
  {
    forall j | 0 <= j < |w.attaches|
      ensures w'.attaches[j].(barrier := Waiting) == w.attaches[j].(barrier := Waiting)
      ensures j != i && Open(w.attaches[j]) ==> Open(w'.attaches[j])
      ensures j != i && !Open(w.attaches[j]) ==> w'.attaches[j] == w.attaches[j]
    {
      assert w1.attaches[j].(barrier := Waiting) == w.attaches[j].(barrier := Waiting);
    }
  }

  // ---------------------------------------------------------------- one step

  /** Where a response of the step comes from. */
  ghost predicate Origin(w: World, e: Event, now: World, c: nat, f: Frame) {
    f.Response?
    && ((e.Inbound? && e.c == c < |w.conns| && e.item.Req? && !e.item.request.AttachTo?
         && f.request == w.conns[c].requests && Fits(w, e.item.request, now, f.reply))
        || (e.Settle? && CanSettle(w, e.i) && w.attaches[e.i].conn == c && w.attaches[e.i].request == f.request
            && SettleFits(w, w.attaches[e.i], f.reply)))
  }

  /** What a step does to the attaches there are. */
  ghost predicate AttachesMove(w: World, e: Event, w': World) {
    && |w.attaches| <= |w'.attaches| <= |w.attaches| + 1
    && (forall i :: 0 <= i < |w.attaches| ==>
          && w'.attaches[i].(barrier := Waiting) == w.attaches[i].(barrier := Waiting)
          && (Open(w'.attaches[i]) ==> Open(w.attaches[i]))
          && (w'.attaches[i].barrier.Refused? ==> w'.attaches[i] == w.attaches[i])
          && (Open(w.attaches[i]) && e != Settle(i) ==> Open(w'.attaches[i]))
          && (Open(w.attaches[i]) && e == Settle(i) && CanSettle(w, i) ==>
                w'.attaches[i].barrier.Settled? && w.attaches[i].conn < |w.conns| <= |w'.conns|
                && AnsweredOrLost(w, w', i))
          && (Open(w.attaches[i]) && e == Settle(i) && !CanSettle(w, i) ==> Open(w'.attaches[i])))
    && (|w'.attaches| > |w.attaches| ==>
          var a := w'.attaches[|w.attaches|];
          && e.Inbound? && e.item.Req? && e.item.request.AttachTo? && e.c == a.conn < |w.conns|
          && a.request == w.conns[a.conn].requests && a.id == e.item.request.id
          && BarrierFits(w, e.item.request.snapshotFails, w', a))
  }

  ghost predicate StepTells(w: World, e: Event, w': World) {
    && |w.conns| <= |w'.conns|
    && (SameAnswers(w, w') || exists c: nat, f :: Answers1(w, w', c, f) && Origin(w, e, w', c, f))
    && AttachesMove(w, e, w') && NoneRevived(w, w')
  }

  lemma CalmTells(w: World, e: Event, w': World)
    requires Calm(w, w') && !e.Settle?
    ensures StepTells(w, e, w')
  {
  }

  lemma ItemTells(w: World, c: nat, item: Item)
    requires Inv(w, Quiet) && c < |w.conns|
    ensures StepTells(w, Inbound(c, item), OnItem(w, c, item))
  {
    var e, w', conn := Inbound(c, item), OnItem(w, c, item), w.conns[c];
    if conn.ended || conn.revoked {
      CalmTells(w, e, w');
    } else if item.Fatal? || (!conn.established && !item.GoodHello?) {
      EndIsCalm(w, c);
      CalmTells(w, e, w');
    } else if !conn.established {
      EstablishIsCalm(w, Reconnect(c, item.nested, item.after));
      CalmTells(w, e, w');
    } else if item.Req? {
      RequestTells(w, c, item.request);
    } else {
      CalmTells(w, e, w');
    }
  }

  lemma RequestTells(w: World, c: nat, r: Request)
    requires Inv(w, Quiet) && c < |w.conns|
    ensures StepTells(w, Inbound(c, Req(r)), Dispatch(w, c, r))
  {
    var e, w' := Inbound(c, Req(r)), Dispatch(w, c, r);
    if r.AttachTo? {
      StartAttachTells(w, c, r.id, r.snapshotFails);
      forall i | 0 <= i < |w.attaches| ensures w'.attaches[i] == w.attaches[i] {
        assert w'.attaches[..|w.attaches|][i] == w.attaches[i];
      }
    } else {
      DispatchAnswers(w, c, r);
      ServedFits(w, c, r, w');
      var f := Response(w.conns[c].requests, Serve(Numbered(w, c), c, r).1);
      assert Origin(w, e, w', c, f);
    }
  }

  lemma SettleTells(w: World, i: nat)
    requires Inv(w, Quiet)
    ensures StepTells(w, Settle(i), SettleAttach(w, i))
  {
    if CanSettle(w, i) {
      SettleAnswers(w, i);
      SettledTells(w, i, SettleAttach(w, i));
    } else {
      assert SettleAttach(w, i) == w;
    }
  }

  lemma SettledTells(w: World, i: nat, w': World)
    requires CanSettle(w, i) && w.attaches[i].conn < |w.conns| <= |w'.conns|
    requires Closes(w, w', i) && NoneRevived(w, w') && AnsweredOrLost(w, w', i)
    requires var a := w.attaches[i];
      || SameAnswers(w, w')
      || exists reply :: SettleFits(w, a, reply) && Answers1(w, w', a.conn, Response(a.request, reply))
    ensures StepTells(w, Settle(i), w')
  {
    if !SameAnswers(w, w') {
      var a := w.attaches[i];
      var reply :| SettleFits(w, a, reply) && Answers1(w, w', a.conn, Response(a.request, reply));
      assert Origin(w, Settle(i), w', a.conn, Response(a.request, reply));
    }
  }

  lemma StepTellsAll(w: World, e: Event)
    requires Inv(w, Quiet)
    ensures StepTells(w, e, Step(w, e))
  {
    match e
    case Accept => CalmTells(w, e, Step(w, e));
    case SetSink(c, sink) =>
      if c < |w.conns| { SentIsCalm(w, c, w.conns[c].(sink := sink), Hello); }
      CalmTells(w, e, Step(w, e));
    case Inbound(c, item) => if c < |w.conns| { ItemTells(w, c, item); }
    case EndOfInput(c) =>
      if c < |w.conns| { EndIsCalm(w, c); }
      CalmTells(w, e, Step(w, e));
    case Backend(callback) => CallbackIsCalm(w, callback); CalmTells(w, e, Step(w, e));
    case Parsed(id) => ParseIsCalm(w, id); CalmTells(w, e, Step(w, e));
    case Settle(i) => SettleTells(w, i);
    case Shutdown => DestroyIsCalm(w); CalmTells(w, e, Step(w, e));
  }
}
