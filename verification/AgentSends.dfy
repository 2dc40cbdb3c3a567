/** Sending, detaching and ending keep the invariant. */
module AgentSends {
  import opened Chunks
  import opened FlowControl
  import opened Replay
  import opened AgentWorld
  import opened AgentInvariant

  function Served(m: Mode): Mode {
    m.(sc := -1, sk := -1)
  }

  lemma TraceOkSnoc(trace: seq<Frame>, f: Frame)
    requires TraceOk(trace) && !f.Hello?
    requires !trace[|trace| - 1].LeaseRevoked?
    requires forall n :: 0 <= n < |trace| && trace[n].Exit? ==> !About(f, trace[n].handle)
    ensures TraceOk(trace + [f])
  {
  }

  // ---------------------------------------------------------------- frames

  lemma PendingSame(w: World, w': World)
    requires w'.attaches == w.attaches
    ensures forall i: nat, c: nat, k: nat :: Pending(w, i, c, k) == Pending(w', i, c, k)
  {
  }

  /** Windows depend on the attaches, the generation and which panes are live, and on nothing else. */
  lemma WindowsSame(w: World, w': World)
    requires w'.attaches == w.attaches && w'.bindGen == w.bindGen
    requires forall h: nat :: Live(w', h) == Live(w, h)
    ensures forall i: nat :: HoldWindow(w', i) == HoldWindow(w, i)
    ensures forall h: nat :: WindowOn(w', h) == WindowOn(w, h)
  {
    forall h: nat ensures WindowOn(w', h) == WindowOn(w, h) {
      if WindowOn(w, h) {
        var i: nat :| HoldWindow(w, i) && w.attaches[i].handle == h;
        assert HoldWindow(w', i);
      }
      if WindowOn(w', h) {
        var i: nat :| HoldWindow(w', i) && w'.attaches[i].handle == h;
        assert HoldWindow(w, i);
      }
    }
  }

  /** A replay that was not touched, with its attaches where they were, stays good. */
  lemma FeedStays(w: World, w': World, rec: PaneRec, rec': PaneRec)
    requires rec.handle < |w.handles| && FeedOk(w, rec)
    requires rec'.handle == rec.handle && rec'.replay == rec.replay && rec'.replayBroken == rec.replayBroken
    requires rec.handle < |w'.handles| && w'.handles[rec.handle].emitted == w.handles[rec.handle].emitted
    requires w.attaches <= w'.attaches && w.ledger <= w'.ledger && |w.conns| <= |w'.conns|
    ensures FeedOk(w', rec')
  {
    forall waiter | waiter in rec'.replay.waiters ensures WaiterOk(w', rec', waiter) {
      assert WaiterOk(w, rec, waiter);
    }
  }

  /** A step that touches nothing but connections keeps what is said about the rest. */
  lemma ConnsOnly(w: World, w': World, m: Mode, m': Mode)
    requires w' == w.(conns := w'.conns, binds := w'.binds)
    requires |w'.conns| == |w.conns|
    requires m'.fh == m.fh && m'.dying == m.dying
    requires Wf(w) && PanesOk(w, m) && HandlesOk(w, m) && GateOk(w) && AllApart(w)
    ensures Wf(w') && PanesOk(w', m') && HandlesOk(w', m') && GateOk(w') && AllApart(w')
  {
    WindowsSame(w, w');
    forall id | id in w'.panes ensures PaneOk(w', id, m') {
      assert PaneOk(w, id, m);
      FeedStays(w, w', w.panes[id], w'.panes[id]);
    }
    forall h | 0 <= h < |w'.handles| ensures HandleOk(w', h, m') { assert HandleOk(w, h, m); }
    forall i, j | 0 <= i < j < |w'.attaches| ensures Apart(w', i, j) { assert Apart(w, i, j); }
  }

  /** Connection `c`'s trace grew by `f`; what earlier positions of it say has not changed. */
  ghost predicate Grew(old_: Conn, new_: Conn, f: Frame) {
    new_.trace == old_.trace || new_.trace == old_.trace + [f]
  }

  lemma AnsweredStays(w: World, w': World, a: Attach, n: nat)
    requires SubMatches(w, a) && SubMatches(w', a) && Answered(w, a, n)
    requires w'.ledger[a.sub] == w.ledger[a.sub]
    requires w.handles[a.handle].emitted <= w'.handles[a.handle].emitted
    requires w.conns[a.conn].trace <= w'.conns[a.conn].trace
    ensures Answered(w', a, n)
  {
    assert w'.conns[a.conn].trace[..n] == w.conns[a.conn].trace[..n];
    var mark := w.ledger[a.sub].mark;
    assert w'.handles[a.handle].emitted[..mark] == w.handles[a.handle].emitted[..mark];
  }

  // ---------------------------------------------------------------- answering a request

  lemma AnswerKeepsFrames(w: World, c: nat, k: nat, reply: Reply)
    requires Wf(w) && c < |w.conns| && FramesOk(w, c)
    ensures FramesOk(Answer(w, c, k, reply), c)
  {
    var conn, conn' := w.conns[c], Answer(w, c, k, reply).conns[c];
    if conn'.trace != conn.trace {
      assert conn'.trace == conn.trace + [Response(k, reply)] && !conn.ended;
      TraceOkSnoc(conn.trace, Response(k, reply));
    } else {
      assert conn' == conn || conn'.lost == conn.lost + 1;
    }
  }

  lemma AnswerKeepsAnswers(w: World, c: nat, k: nat, reply: Reply, m: Mode)
    requires Wf(w) && c < |w.conns| && m.sc == c && m.sk == k && AnswersOk(w, c, m)
    ensures AnswersOk(Answer(w, c, k, reply), c, Served(m))
  {
    PendingSame(w, Answer(w, c, k, reply));
    AnswerCounts(w.conns[c].trace, k, reply);
  }

  lemma AnswerCounts(trace: seq<Frame>, k: nat, reply: Reply)
    ensures forall j: nat {:trigger AnswerCount(trace + [Response(k, reply)], j)} ::
      AnswerCount(trace + [Response(k, reply)], j) == AnswerCount(trace, j) + if j == k then 1 else 0
  {
    forall j: nat
      ensures AnswerCount(trace + [Response(k, reply)], j) == AnswerCount(trace, j) + if j == k then 1 else 0
    {
      AnswerCountSnoc(trace, Response(k, reply), j);
    }
  }

  lemma AnswerKeepsConns(w: World, c: nat, k: nat, reply: Reply, m: Mode)
    requires Inv(w, m) && c < |w.conns| && m.sc == c && m.sk == k
    ensures ConnsOk(Answer(w, c, k, reply), Served(m)) && BoundOk(Answer(w, c, k, reply))
  {
    var w', m' := Answer(w, c, k, reply), Served(m);
    PendingSame(w, w');
    forall d | 0 <= d < |w'.conns| ensures ConnOk(w', d, m') {
      assert ConnOk(w, d, m);
      if d == c { AnswerKeepsOwn(w, c, k, reply, m); }
    }
  }

  lemma AnswerKeepsOwn(w: World, c: nat, k: nat, reply: Reply, m: Mode)
    requires Wf(w) && c < |w.conns| && m.sc == c && m.sk == k && ConnOk(w, c, m)
    ensures ConnOk(Answer(w, c, k, reply), c, Served(m))
  {
    AnswerKeepsFrames(w, c, k, reply);
    AnswerKeepsAnswers(w, c, k, reply, m);
  }

  lemma AnswerKeeps(w: World, c: nat, k: nat, reply: Reply, m: Mode)
    requires Inv(w, m) && c < |w.conns| && m.sc == c && m.sk == k
    ensures Inv(Answer(w, c, k, reply), Served(m))
  {
    var w', m', f := Answer(w, c, k, reply), Served(m), Response(k, reply);
    AnswerKeepsConns(w, c, k, reply, m);
    ConnsOnly(w, w', m, m');
    GrowthKeepsLedger(w, w', c, f, m, m');
    GrowthKeepsAttaches(w, w', c, f, m, m');
  }

  /** One connection's trace and flags move on; the store does not. */
  ghost predicate Grows(w: World, w': World, c: nat, f: Frame, m: Mode, m': Mode) {
    && c < |w.conns| && w' == w.(conns := w'.conns)
    && |w'.conns| == |w.conns| && w'.conns == w.conns[c := w'.conns[c]]
    && Grew(w.conns[c], w'.conns[c], f) && !Concerns(f)
    && (f.Response? ==> m.sc == c && m.sk == f.request)
    && (w.conns[c].ended ==> w'.conns[c].ended)
    && (w.conns[c].established ==> w'.conns[c].established)
    && w'.conns[c].requests >= w.conns[c].requests
    && m'.fh == m.fh && m'.dying == m.dying && m'.rest == m.rest
    && (m'.x == m.x || (m.x == c && w'.conns[c].ended))
    && ((m'.sc == m.sc && m'.sk == m.sk) || m'.sc == -1)
  }

  lemma GrowthKeepsAttach(w: World, w': World, c: nat, f: Frame, m: Mode, m': Mode, i: nat)
    requires Wf(w) && i < |w.attaches| && AttachOk(w, i, m) && Grows(w, w', c, f, m, m')
    requires forall n :: 0 <= n < |w.ledger| ==>
      w.ledger[n].conn < |w.conns| && w.ledger[n].at <= |w.conns[w.ledger[n].conn].trace|
    ensures AttachOk(w', i, m')
  {
    var a := w.attaches[i];
    WindowsSame(w, w');
    if a.conn == c {
      AnswerCountSnoc(w.conns[c].trace, f, a.request);
      if Open(a) {
        DataInSnoc(w.conns[c].trace, f, w.ledger[a.sub].at, a.handle);
      }
    }
    if a.barrier.Settled? && a.barrier.answer.Some? { AnsweredStays(w, w', a, a.barrier.answer.value); }
  }

  lemma GrowthKeepsAttaches(w: World, w': World, c: nat, f: Frame, m: Mode, m': Mode)
    requires Wf(w) && LedgerOk(w, m) && AttachesOk(w, m) && Grows(w, w', c, f, m, m')
    ensures AttachesOk(w', m')
  {
    forall n | 0 <= n < |w.ledger|
      ensures w.ledger[n].conn < |w.conns| && w.ledger[n].at <= |w.conns[w.ledger[n].conn].trace|
    {
      assert SubOk(w, n, m);
    }
    forall i | 0 <= i < |w'.attaches| ensures AttachOk(w', i, m') {
      assert AttachOk(w, i, m);
      GrowthKeepsAttach(w, w', c, f, m, m', i);
    }
  }

  lemma GrowthKeepsLedger(w: World, w': World, c: nat, f: Frame, m: Mode, m': Mode)
    requires Wf(w) && LedgerOk(w, m) && Grows(w, w', c, f, m, m')
    ensures LedgerOk(w', m')
  {
    forall n | 0 <= n < |w'.ledger| ensures SubOk(w', n, m') {
      assert SubOk(w, n, m);
      GrowthKeepsSub(w, w', c, f, m, m', n);
    }
  }

  lemma GrowthKeepsSub(w: World, w': World, c: nat, f: Frame, m: Mode, m': Mode, n: nat)
    requires Wf(w) && n < |w.ledger| && SubOk(w, n, m) && Grows(w, w', c, f, m, m')
    ensures SubOk(w', n, m')
  {
    var e := w.ledger[n];
    assert forall h: nat :: Live(w', h) == Live(w, h);
    if e.conn == c { DataInSnoc(w.conns[c].trace, f, e.at, e.handle); }
  }
}
