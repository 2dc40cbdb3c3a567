/** An attach settles: its answer, then the bytes held since the request. */
module AgentSettles {
  import opened Chunks
  import opened FlowControl
  import opened Replay
  import opened AgentWorld
  import opened AgentInvariant
  import opened AgentSends
  import opened AgentDelivery
  import opened AgentPanes

  function Closed(w: World, i: nat, answer: Option<nat>): World
    requires i < |w.attaches|
  {
    w.(attaches := w.attaches[i := w.attaches[i].(barrier := Settled(answer))])
  }

  function Serving(m: Mode, a: Attach): Mode {
    m.(sc := a.conn, sk := a.request)
  }

  // ---------------------------------------------------------------- refusals

  /** An attach with no window open and nobody waiting for it can be closed unanswered. */
  ghost predicate CanClose(w: World, i: nat, m: Mode, m': Mode) {
    && Inv(w, m) && m == Quiet && i < |w.attaches|
    && (w.attaches[i].barrier.Refused? || w.attaches[i].barrier.Ready?)
    && !HoldWindow(w, i) && m' == Serving(m, w.attaches[i])
  }

  lemma ClosedWindows(w: World, i: nat, answer: Option<nat>)
    requires i < |w.attaches|
    ensures var w' := Closed(w, i, answer);
      && (forall h: nat :: Live(w', h) == Live(w, h))
      && (forall j: nat :: j != i ==> HoldWindow(w', j) == HoldWindow(w, j)) && !HoldWindow(w', i)
      && (forall j: nat, c: nat, k: nat :: j != i ==> Pending(w', j, c, k) == Pending(w, j, c, k))
  {
  }

  lemma ClosedKeepsFeed(w: World, i: nat, answer: Option<nat>, rec: PaneRec)
    requires i < |w.attaches| && !w.attaches[i].barrier.Waiting? && rec.handle < |w.handles| && FeedOk(w, rec)
    ensures FeedOk(Closed(w, i, answer), rec)
  {
    forall waiter | waiter in rec.replay.waiters ensures WaiterOk(Closed(w, i, answer), rec, waiter) {
      assert WaiterOk(w, rec, waiter);
    }
  }

  lemma ClosedKeepsPane(w: World, i: nat, m: Mode, m': Mode, id: string)
    requires CanClose(w, i, m, m') && id in w.panes
    ensures PaneOk(Closed(w, i, None), id, m')
  {
    var w', rec := Closed(w, i, None), w.panes[id];
    assert PaneOk(w, id, m);
    ClosedWindows(w, i, None);
    ClosedKeepsFeed(w, i, None, rec);
    if rec.holds == 1 {
      var j: nat :| HoldWindow(w, j) && w.attaches[j].handle == rec.handle;
      assert HoldWindow(w', j);
    }
  }

  lemma ClosedKeepsAttach(w: World, i: nat, m: Mode, m': Mode, j: nat)
    requires CanClose(w, i, m, m') && j < |w.attaches|
    ensures AttachOk(Closed(w, i, None), j, m')
  {
    var w', a := Closed(w, i, None), w.attaches[j];
    assert AttachOk(w, j, m);
    ClosedWindows(w, i, None);
    if j < i { assert Apart(w, j, i); }
    if i < j { assert Apart(w, i, j); }
    if a.barrier.Settled? && a.barrier.answer.Some? { AnsweredStays(w, w', a, a.barrier.answer.value); }
  }

  lemma ClosedKeepsConns(w: World, i: nat, m: Mode, m': Mode)
    requires CanClose(w, i, m, m')
    ensures ConnsOk(Closed(w, i, None), m')
  {
    var w', a := Closed(w, i, None), w.attaches[i];
    ClosedWindows(w, i, None);
    assert AttachOk(w, i, m);
    forall c | 0 <= c < |w'.conns| ensures ConnOk(w', c, m') {
      assert ConnOk(w, c, m);
      assert FramesOk(w', c);
      assert AnswersOk(w', c, m');
    }
  }

  lemma ClosedKeeps(w: World, i: nat, m: Mode, m': Mode)
    requires CanClose(w, i, m, m')
    ensures Inv(Closed(w, i, None), m')
  {
    var w' := Closed(w, i, None);
    ClosedKeepsConns(w, i, m, m');
    forall id | id in w'.panes ensures PaneOk(w', id, m') { ClosedKeepsPane(w, i, m, m', id); }
    ClosedWindows(w, i, None);
    forall h | 0 <= h < |w'.handles| ensures HandleOk(w', h, m') { assert HandleOk(w, h, m); }
    forall j | 0 <= j < |w'.attaches| ensures AttachOk(w', j, m') { ClosedKeepsAttach(w, i, m, m', j); }
    forall p, q | 0 <= p < q < |w'.attaches| ensures Apart(w', p, q) { assert Apart(w, p, q); }
    forall n | 0 <= n < |w'.ledger| ensures SubOk(w', n, m') {
      assert SubOk(w, n, m);
      if Live(w, w.ledger[n].handle) { assert Owed(w', w.ledger[n].handle, m') == Owed(w, w.ledger[n].handle, m); }
    }
  }

  /** A connection that ended is not waiting for anything any more. */
  lemma EndedIsServed(w: World, m: Mode, m': Mode)
    requires Inv(w, m) && m' == Served(m) && m.sc >= 0 && m.sc < |w.conns| && w.conns[m.sc].ended
    ensures Inv(w, m')
  {
    forall c | 0 <= c < |w.conns| ensures ConnOk(w, c, m') { assert ConnOk(w, c, m); }
    forall id | id in w.panes ensures PaneOk(w, id, m') { assert PaneOk(w, id, m); }
    forall h | 0 <= h < |w.handles| ensures HandleOk(w, h, m') { assert HandleOk(w, h, m); }
    forall i | 0 <= i < |w.attaches| ensures AttachOk(w, i, m') { assert AttachOk(w, i, m); }
    forall n | 0 <= n < |w.ledger| ensures SubOk(w, n, m') { assert SubOk(w, n, m); }
  }

  lemma RefusalKeeps(w: World, i: nat, reply: Reply, m: Mode, m': Mode)
    requires CanClose(w, i, m, m')
    ensures var a := w.attaches[i];
      a.conn < |w.conns| && Inv(Answer(Closed(w, i, None), a.conn, a.request, reply), m)
  {
    var a := w.attaches[i];
    assert AttachOk(w, i, m);
    ClosedKeeps(w, i, m, m');
    AnswerKeeps(Closed(w, i, None), a.conn, a.request, reply, m');
    assert Served(m') == m;
  }

  // ---------------------------------------------------------------- the snapshot goes out

  /** Response sent (or lost) and window shut; what was held is still to be drained. */
  function Responded(w: World, i: nat): World
    requires Wf(w) && i < |w.attaches| && w.attaches[i].barrier.Ready? && w.attaches[i].id in w.panes
  {
    var a := w.attaches[i];
    var (conn, sent) := Send(w.conns[a.conn], Response(a.request, Attached(a.barrier.snapshot)));
    var w1 := Closed(w, i, if sent then Some(|w.conns[a.conn].trace|) else None);
    w1.(conns := w1.conns[a.conn := conn],
        panes := w1.panes[a.id := w1.panes[a.id].(holds := 0, held := [])])
  }

  ghost predicate CanRespond(w: World, i: nat, m: Mode, m': Mode) {
    && Inv(w, m) && m == Quiet && i < |w.attaches|
    && w.attaches[i].barrier.Ready? && HoldWindow(w, i)
    && w.attaches[i].conn < |w.conns| && !w.conns[w.attaches[i].conn].ended
    && w.attaches[i].id in w.panes && w.panes[w.attaches[i].id].handle == w.attaches[i].handle
    && m' == m.(fh := w.attaches[i].handle, rest := w.panes[w.attaches[i].id].held)
  }

  lemma RespondedWindows(w: World, i: nat, m: Mode, m': Mode)
    requires CanRespond(w, i, m, m')
    ensures var w' := Responded(w, i);
      && (forall h: nat :: Live(w', h) == Live(w, h))
      && (forall j: nat :: j != i ==> HoldWindow(w', j) == HoldWindow(w, j)) && !HoldWindow(w', i)
      && (forall j: nat, c: nat, k: nat :: j != i ==> Pending(w', j, c, k) == Pending(w, j, c, k))
  {
  }

  lemma RespondedKeepsPane(w: World, i: nat, m: Mode, m': Mode, id: string)
    requires CanRespond(w, i, m, m') && id in w.panes
    ensures PaneOk(Responded(w, i), id, m')
  {
    var w', rec := Responded(w, i), w.panes[id];
    assert PaneOk(w, id, m);
    RespondedWindows(w, i, m, m');
    var w1 := Closed(w, i, w'.attaches[i].barrier.answer);
    ClosedKeepsFeed(w, i, w'.attaches[i].barrier.answer, rec);
    FeedStays(w1, w', rec, w'.panes[id]);
    if rec.holds == 1 && id != w.attaches[i].id {
      var j: nat :| HoldWindow(w, j) && w.attaches[j].handle == rec.handle;
      assert HoldWindow(w', j);
    }
  }

  /** The response to one attach is neither a response nor data to another. */
  lemma RespondedSparesTrace(w: World, i: nat, m: Mode, m': Mode, j: nat)
    requires CanRespond(w, i, m, m') && j < |w.attaches| && j != i && AttachOk(w, j, m)
    requires w.attaches[j].conn == w.attaches[i].conn ==> w.attaches[j].request != w.attaches[i].request
    ensures var a := w.attaches[j];
      var before, after := w.conns[a.conn].trace, Responded(w, i).conns[a.conn].trace;
      && AnswerCount(after, a.request) == AnswerCount(before, a.request)
      && (Open(a) ==> DataIn(after, w.ledger[a.sub].at, a.handle) == DataIn(before, w.ledger[a.sub].at, a.handle))
  {
    var mine, a := w.attaches[i], w.attaches[j];
    if a.conn == mine.conn {
      var before, after := w.conns[a.conn], Responded(w, i).conns[a.conn];
      ResponseIsNoAnswer(before, after, mine.request, Attached(mine.barrier.snapshot), a.request);
      if Open(a) {
        assert SubOk(w, a.sub, m);
        ResponseIsNoData(before, after, mine.request, Attached(mine.barrier.snapshot), w.ledger[a.sub].at, a.handle);
      }
    }
  }

  lemma ResponseIsNoAnswer(before: Conn, after: Conn, k: nat, reply: Reply, other: nat)
    requires Grew(before, after, Response(k, reply)) && other != k
    ensures AnswerCount(after.trace, other) == AnswerCount(before.trace, other)
  {
    AnswerCountSnoc(before.trace, Response(k, reply), other);
  }

  lemma RespondedKeepsOther(w: World, i: nat, m: Mode, m': Mode, j: nat)
    requires CanRespond(w, i, m, m') && j < |w.attaches| && j != i
    ensures AttachOk(Responded(w, i), j, m')
  {
    var w', mine, a := Responded(w, i), w.attaches[i], w.attaches[j];
    assert AttachOk(w, j, m);
    RespondedWindows(w, i, m, m');
    if j < i { assert Apart(w, j, i); } else { assert Apart(w, i, j); }
    RespondedSparesTrace(w, i, m, m', j);
    if a.barrier.Settled? && a.barrier.answer.Some? { AnsweredStays(w, w', a, a.barrier.answer.value); }
  }

  lemma RespondedIsAnswered(w: World, i: nat, m: Mode, m': Mode)
    requires CanRespond(w, i, m, m')
    ensures AttachOk(Responded(w, i), i, m')
  {
    var w', a := Responded(w, i), w.attaches[i];
    assert AttachOk(w, i, m);
    assert SubOk(w, a.sub, m);
    var trace := w.conns[a.conn].trace;
    if w'.attaches[i].barrier.answer.Some? {
      assert w'.conns[a.conn].trace[..|trace|] == trace;
      assert Answered(w', w'.attaches[i], |trace|);
    }
  }

  lemma RespondedKeepsAnswers(w: World, i: nat, m: Mode, m': Mode)
    requires CanRespond(w, i, m, m')
    ensures AnswersOk(Responded(w, i), w.attaches[i].conn, m')
  {
    var w', a := Responded(w, i), w.attaches[i];
    var f := Response(a.request, Attached(a.barrier.snapshot));
    assert ConnOk(w, a.conn, m) && AttachOk(w, i, m);
    RespondedWindows(w, i, m, m');
    var trace, trace' := w.conns[a.conn].trace, w'.conns[a.conn].trace;
    if trace' != trace {
      forall k: nat ensures AnswerCount(trace', k) == AnswerCount(trace, k) + if k == a.request then 1 else 0 {
        AnswerCountSnoc(trace, f, k);
      }
    }
  }

  lemma RespondedKeepsConn(w: World, i: nat, m: Mode, m': Mode, c: nat)
    requires CanRespond(w, i, m, m') && c < |w.conns|
    ensures ConnOk(Responded(w, i), c, m')
  {
    var a := w.attaches[i];
    assert ConnOk(w, c, m);
    if c == a.conn {
      RespondedKeepsAnswers(w, i, m, m');
      TraceOkSnoc(w.conns[c].trace, Response(a.request, Attached(a.barrier.snapshot)));
    } else {
      RespondedSparesAnswers(w, i, m, m', c);
    }
    RespondedKeepsFrames(w, i, m, m', c);
  }

  lemma RespondedSparesAnswers(w: World, i: nat, m: Mode, m': Mode, c: nat)
    requires CanRespond(w, i, m, m') && c < |w.conns| && c != w.attaches[i].conn
    ensures AnswersOk(Responded(w, i), c, m')
  {
    RespondedWindows(w, i, m, m');
    assert ConnOk(w, c, m);
  }

  lemma RespondedKeepsFrames(w: World, i: nat, m: Mode, m': Mode, c: nat)
    requires CanRespond(w, i, m, m') && c < |w.conns|
      && (c == w.attaches[i].conn ==> TraceOk(Responded(w, i).conns[c].trace))
    ensures FramesOk(Responded(w, i), c)
  {
    var w' := Responded(w, i);
    RespondedWindows(w, i, m, m');
    assert ConnOk(w, c, m) && FramesOk(w, c);
    var trace, trace' := w.conns[c].trace, w'.conns[c].trace;
    forall n | 0 <= n < |trace'| && Concerns(trace'[n])
      ensures trace'[n].handle < |w'.handles| && (trace'[n].Exit? ==> !Live(w', trace'[n].handle))
    {
      assert n < |trace| && trace'[n] == trace[n];
    }
  }

  lemma RespondedKeepsConns(w: World, i: nat, m: Mode, m': Mode)
    requires CanRespond(w, i, m, m')
    ensures ConnsOk(Responded(w, i), m') && BoundOk(Responded(w, i))
  {
    var w' := Responded(w, i);
    forall c | 0 <= c < |w'.conns| ensures ConnOk(w', c, m') { RespondedKeepsConn(w, i, m, m', c); }
  }

  lemma ResponseIsNoData(before: Conn, after: Conn, k: nat, reply: Reply, at: nat, h: nat)
    requires Grew(before, after, Response(k, reply)) && at <= |before.trace|
    ensures DataIn(after.trace, at, h) == DataIn(before.trace, at, h)
    ensures HasExit(before.trace, at, h) ==> HasExit(after.trace, at, h)
  {
    DataInSnoc(before.trace, Response(k, reply), at, h);
    if HasExit(before.trace, at, h) { HasExitStays(before.trace, Response(k, reply), at, h); }
  }

  lemma RespondedKeepsSub(w: World, i: nat, m: Mode, m': Mode, n: nat)
    requires CanRespond(w, i, m, m') && n < |w.ledger|
    ensures SubOk(Responded(w, i), n, m')
  {
    var w', a, e := Responded(w, i), w.attaches[i], w.ledger[n];
    assert SubOk(w, n, m);
    assert forall h: nat :: Live(w', h) == Live(w, h);
    if e.conn == a.conn {
      ResponseIsNoData(w.conns[a.conn], w'.conns[a.conn], a.request, Attached(a.barrier.snapshot), e.at, e.handle);
    }
    if Live(w, e.handle) { assert Owed(w', e.handle, m') == Owed(w, e.handle, m); }
  }

  lemma RespondedKeeps(w: World, i: nat, m: Mode, m': Mode)
    requires CanRespond(w, i, m, m')
    ensures Inv(Responded(w, i), m')
  {
    var w' := Responded(w, i);
    RespondedKeepsConns(w, i, m, m');
    RespondedWindows(w, i, m, m');
    forall id | id in w'.panes ensures PaneOk(w', id, m') { RespondedKeepsPane(w, i, m, m', id); }
    forall h | 0 <= h < |w'.handles| ensures HandleOk(w', h, m') { assert HandleOk(w, h, m); }
    forall j | 0 <= j < |w'.attaches| ensures AttachOk(w', j, m') {
      if j == i { RespondedIsAnswered(w, i, m, m'); } else { RespondedKeepsOther(w, i, m, m', j); }
    }
    forall p, q | 0 <= p < q < |w'.attaches| ensures Apart(w', p, q) { assert Apart(w, p, q); }
    forall n | 0 <= n < |w'.ledger| ensures SubOk(w', n, m') { RespondedKeepsSub(w, i, m, m', n); }
  }

  lemma RespondAndDrain(w: World, i: nat, m: Mode)
    requires CanRespond(w, i, Quiet, m)
    ensures var a := w.attaches[i];
      Inv(DeliverAll(Responded(w, i), a.id, a.handle, w.panes[a.id].held), Quiet)
  {
    var a, w1 := w.attaches[i], Responded(w, i);
    RespondedKeeps(w, i, Quiet, m);
    assert AttachOk(w, i, Quiet);
    DeliverAllKeeps(w1, a.id, a.handle, w.panes[a.id].held, m);
    NothingOwed(DeliverAll(w1, a.id, a.handle, w.panes[a.id].held), m.(rest := []), Quiet);
  }

  /** The barrier failed, or the pane the snapshot was for is gone: an error response. */
  lemma SettleRefusedKeeps(w: World, i: nat)
    requires Inv(w, Quiet) && i < |w.attaches|
    requires var a := w.attaches[i];
      a.barrier.Refused? || (a.barrier.Ready? && !(a.id in w.panes && w.panes[a.id].handle == a.handle))
    ensures Inv(SettleAttach(w, i), Quiet)
  {
    var a := w.attaches[i];
    assert AttachOk(w, i, Quiet);
    RefusalKeeps(w, i, Failed(if a.barrier.Refused? then a.barrier.code else UnknownPane), Quiet, Serving(Quiet, a));
  }

  /** The connection has ended meanwhile: nothing is sent. */
  lemma SettleEndedKeeps(w: World, i: nat)
    requires Inv(w, Quiet) && i < |w.attaches| && w.attaches[i].barrier.Ready?
    requires w.attaches[i].id in w.panes && w.panes[w.attaches[i].id].handle == w.attaches[i].handle
      && w.conns[w.attaches[i].conn].ended
    ensures Inv(SettleAttach(w, i), Quiet)
  {
    var a := w.attaches[i];
    assert AttachOk(w, i, Quiet);
    assert !HoldWindow(w, i);
    ClosedKeeps(w, i, Quiet, Serving(Quiet, a));
    EndedIsServed(Closed(w, i, None), Serving(Quiet, a), Quiet);
  }

  /** The snapshot goes out, then the held bytes. */
  lemma SettleReadyKeeps(w: World, i: nat)
    requires Inv(w, Quiet) && i < |w.attaches| && w.attaches[i].barrier.Ready?
    requires w.attaches[i].id in w.panes && w.panes[w.attaches[i].id].handle == w.attaches[i].handle
      && !w.conns[w.attaches[i].conn].ended
    ensures Inv(SettleAttach(w, i), Quiet)
  {
    ReadyHolds(w, i);
    SettleUnfolds(w, i);
    RespondAndDrain(w, i, Quiet.(fh := w.attaches[i].handle, rest := w.panes[w.attaches[i].id].held));
  }

  /** An attach whose connection still speaks has its window open. */
  lemma ReadyHolds(w: World, i: nat)
    requires Inv(w, Quiet) && i < |w.attaches| && w.attaches[i].barrier.Ready?
    requires w.attaches[i].id in w.panes && w.panes[w.attaches[i].id].handle == w.attaches[i].handle
      && !w.conns[w.attaches[i].conn].ended
    ensures HoldWindow(w, i) && w.bound.Some?
    ensures w.panes[w.attaches[i].id].holds == 1 && w.panes[w.attaches[i].id].subscribed
  {
    assert AttachOk(w, i, Quiet) && PaneOk(w, w.attaches[i].id, Quiet);
  }

  lemma SettleUnfolds(w: World, i: nat)
    requires Wf(w) && i < |w.attaches| && w.attaches[i].barrier.Ready? && w.bound.Some?
    requires HoldWindow(w, i) && w.attaches[i].id in w.panes
    requires var a := w.attaches[i];
      && w.panes[a.id].handle == a.handle && !w.conns[a.conn].ended
      && w.panes[a.id].holds == 1 && w.panes[a.id].subscribed
    ensures var a := w.attaches[i];
      SettleAttach(w, i) == DeliverAll(Responded(w, i), a.id, a.handle, w.panes[a.id].held)
  {
  }

  lemma SettleKeeps(w: World, i: nat)
    requires Inv(w, Quiet)
    ensures Inv(SettleAttach(w, i), Quiet)
  {
    if i < |w.attaches| && (w.attaches[i].barrier.Refused? || w.attaches[i].barrier.Ready?) {
      var a := w.attaches[i];
      if a.barrier.Refused? || a.id !in w.panes || w.panes[a.id].handle != a.handle {
        SettleRefusedKeeps(w, i);
      } else if w.conns[a.conn].ended {
        SettleEndedKeeps(w, i);
      } else {
        SettleReadyKeeps(w, i);
      }
    }
  }
}
