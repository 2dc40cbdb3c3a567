/** Routing to the bound client, and losing it, keep the invariant. */
module AgentDelivery {
  import opened Chunks
  import opened FlowControl
  import opened Replay
  import opened AgentWorld
  import opened AgentInvariant
  import opened AgentSends

  // ---------------------------------------------------------------- a connection ends

  lemma UnbindKeepsPanes(w: World, m: Mode, m': Mode)
    requires Wf(w) && PanesOk(w, m) && m'.dying == m.dying && m'.fh == m.fh
    ensures PanesOk(UnbindInternal(w), m')
  {
    var w' := UnbindInternal(w);
    forall id | id in w'.panes ensures PaneOk(w', id, m') {
      assert PaneOk(w, id, m);
      FeedStays(w, w', w.panes[id], w'.panes[id]);
    }
  }

  /** Who is left without the store: the holder, or nobody new if there was none. */
  function Leaver(w: World, m: Mode): int {
    if w.bound.Some? then w.bound.value else m.x
  }

  lemma UnbindKeepsAttach(w: World, m: Mode, m': Mode, i: nat)
    requires Wf(w) && i < |w.attaches| && AttachOk(w, i, m) && (m.x == -1 || w.bound.None? || w.destroyed)
    requires m' == m.(x := Leaver(w, m), rest := m'.rest)
    ensures AttachOk(UnbindInternal(w), i, m')
  {
    var w', a := UnbindInternal(w), w.attaches[i];
    assert !HoldWindow(w', i);
    assert Live(w', a.handle) == Live(w, a.handle);
    if a.barrier.Settled? && a.barrier.answer.Some? { AnsweredStays(w, w', a, a.barrier.answer.value); }
  }

  lemma UnbindKeeps(w: World, m: Mode, m': Mode)
    requires Inv(w, m) && (m.x == -1 || w.bound.None? || w.destroyed)
    requires m' == m.(x := Leaver(w, m), rest := m'.rest)
    ensures Inv(UnbindInternal(w), m')
  {
    var w' := UnbindInternal(w);
    UnbindKeepsPanes(w, m, m');
    PendingSame(w, w');
    forall c | 0 <= c < |w'.conns| ensures ConnOk(w', c, m') {
      assert ConnOk(w, c, m);
      assert FramesOk(w', c);
      assert AnswersOk(w', c, m');
    }
    forall h | 0 <= h < |w'.handles| ensures HandleOk(w', h, m') { assert HandleOk(w, h, m); }
    forall i | 0 <= i < |w'.attaches| ensures AttachOk(w', i, m') {
      assert AttachOk(w, i, m);
      UnbindKeepsAttach(w, m, m', i);
    }
    forall i, j | 0 <= i < j < |w'.attaches| ensures Apart(w', i, j) {
      assert Apart(w, i, j);
      assert AttachOk(w, i, m);
      assert AttachOk(w, j, m);
    }
    forall n | 0 <= n < |w'.ledger| ensures SubOk(w', n, m') { assert SubOk(w, n, m); }
  }

  function SetEnded(w: World, c: nat): World
    requires c < |w.conns|
  {
    w.(conns := w.conns[c := w.conns[c].(ended := true)])
  }

  lemma SetEndedKeeps(w: World, c: nat, m: Mode, m': Mode)
    requires Inv(w, m) && c < |w.conns| && w.bound != Some(c)
    requires m' == m.(x := if m.x == c || w.destroyed then -1 else m.x)
    ensures Inv(SetEnded(w, c), m')
  {
    var w' := SetEnded(w, c);
    ConnsOnly(w, w', m, m');
    if w.destroyed {
      XIsMoot(w, m, m');
      GrowthKeepsLedger(w, w', c, LeaseRevoked, m', m');
      GrowthKeepsAttaches(w, w', c, LeaseRevoked, m', m');
    } else {
      GrowthKeepsLedger(w, w', c, LeaseRevoked, m, m');
      GrowthKeepsAttaches(w, w', c, LeaseRevoked, m, m');
    }
    PendingSame(w, w');
    forall d | 0 <= d < |w'.conns| ensures ConnOk(w', d, m') {
      assert ConnOk(w, d, m);
      assert FramesOk(w', d);
      assert AnswersOk(w', d, m');
    }
  }

  /** On a destroyed store it does not matter who is leaving. */
  lemma XIsMoot(w: World, m: Mode, m': Mode)
    requires w.destroyed && LedgerOk(w, m) && AttachesOk(w, m) && m' == m.(x := m'.x)
    ensures LedgerOk(w, m') && AttachesOk(w, m')
  {
    forall i | 0 <= i < |w.attaches| ensures AttachOk(w, i, m') { assert AttachOk(w, i, m); }
    forall n | 0 <= n < |w.ledger| ensures SubOk(w, n, m') { assert SubOk(w, n, m); }
  }

  /** Ending a connection, with or without the lease, leaves a good store behind. */
  lemma EndKeeps(w: World, c: nat, m: Mode, m': Mode)
    requires Inv(w, m) && c < |w.conns|
    requires m.x == -1 || (m.x == c && w.bound.None?)
    requires m' == m.(x := -1, rest := m'.rest)
      && (w.bound.None? || w.bound == Some(c) || m'.rest == m.rest || w.destroyed)
    ensures Inv(End(w, c), m')
  {
    assert ConnOk(w, c, m);
    if w.conns[c].ended {
      LoseX(w, c, m, m');
    } else if w.conns[c].holdsLease {
      EndHolderKeeps(w, c, m, m');
    } else {
      SetEndedKeeps(w, c, m, m.(x := -1));
      if m'.rest != m.rest { RestIsMoot(SetEnded(w, c), m.(x := -1), m'); }
    }
  }

  lemma EndHolderKeeps(w: World, c: nat, m: Mode, m': Mode)
    requires Inv(w, m) && c < |w.conns| && !w.conns[c].ended && w.conns[c].holdsLease
    requires m.x == -1 || (m.x == c && w.bound.None?)
    requires m' == m.(x := -1, rest := m'.rest)
      && (w.bound.None? || w.bound == Some(c) || m'.rest == m.rest || w.destroyed)
    ensures Inv(End(w, c), m')
  {
    assert ConnOk(w, c, m);
    var m1 := m'.(x := Leaver(w, m));
    UnbindKeeps(w, m, m1);
    var w1 := UnbindInternal(w);
    assert UnbindInternal(SetEnded(w, c)) == SetEnded(w1, c);
    SetEndedKeeps(w1, c, m1, m');
  }

  lemma LoseX(w: World, c: nat, m: Mode, m': Mode)
    requires Inv(w, m) && c < |w.conns| && w.conns[c].ended && (m.x == -1 || m.x == c)
    requires m' == m.(x := -1, rest := m'.rest)
      && (w.bound.None? || w.bound == Some(c) || m'.rest == m.rest || w.destroyed)
    ensures Inv(w, m')
  {
    forall d | 0 <= d < |w.conns| ensures ConnOk(w, d, m') { assert ConnOk(w, d, m); }
    forall id | id in w.panes ensures PaneOk(w, id, m') { assert PaneOk(w, id, m); }
    forall h | 0 <= h < |w.handles| ensures HandleOk(w, h, m') { assert HandleOk(w, h, m); }
    forall i | 0 <= i < |w.attaches| ensures AttachOk(w, i, m') { assert AttachOk(w, i, m); }
    forall n | 0 <= n < |w.ledger| ensures SubOk(w, n, m') { assert SubOk(w, n, m); }
  }

  /** With no client, or no pane, nothing is owed. */
  lemma RestIsMoot(w: World, m: Mode, m': Mode)
    requires Inv(w, m) && m' == m.(rest := m'.rest) && (w.bound.None? || w.destroyed)
    ensures Inv(w, m')
  {
    forall d | 0 <= d < |w.conns| ensures ConnOk(w, d, m') { assert ConnOk(w, d, m); }
    forall id | id in w.panes ensures PaneOk(w, id, m') { assert PaneOk(w, id, m); }
    forall h | 0 <= h < |w.handles| ensures HandleOk(w, h, m') { assert HandleOk(w, h, m); }
    forall i | 0 <= i < |w.attaches| ensures AttachOk(w, i, m') { assert AttachOk(w, i, m); }
    forall n | 0 <= n < |w.ledger| ensures SubOk(w, n, m') { assert SubOk(w, n, m); }
  }

  // ---------------------------------------------------------------- a frame for the bound client

  /** No connection has been told that handle `h` exited. */
  ghost predicate NoExitYet(w: World, h: nat) {
    forall c, n :: 0 <= c < |w.conns| && 0 <= n < |w.conns[c].trace| && w.conns[c].trace[n].Exit? ==>
      w.conns[c].trace[n].handle != h
  }

  lemma LiveHasNoExit(w: World, h: nat, m: Mode)
    requires ConnsOk(w, m) && Live(w, h)
    ensures NoExitYet(w, h)
  {
    forall c, n | 0 <= c < |w.conns| && 0 <= n < |w.conns[c].trace| && w.conns[c].trace[n].Exit?
      ensures w.conns[c].trace[n].handle != h
    {
      assert ConnOk(w, c, m);
    }
  }

  /** When frame `f` about a pane may go out, and what is owed to the client afterwards. */
  ghost predicate MaySend(w: World, f: Frame, m: Mode, m': Mode) {
    && Concerns(f) && f.handle < |w.handles| && f.id == w.handles[f.handle].id
    && m.x == -1 && NoExitYet(w, f.handle)
    && match f
       case Data(id, h, text) =>
         && Live(w, h) && w.handles[h].id == id && w.panes[id].held == []
         && (Dying(m, h) || w.panes[id].holds == 0)
         && m.fh == h && m.rest != [] && m.rest[0] == text && m' == m.(rest := m.rest[1..])
       case Status(id, h) => m' == m
       case Exit(id, h, code) => !Live(w, h) && m' == m
  }

  function Sent(w: World, f: Frame): World
    requires w.bound.Some? && w.bound.value < |w.conns|
  {
    var c := w.bound.value;
    w.(conns := w.conns[c := w.conns[c].(sink := Send(w.conns[c], f).0.sink, trace := w.conns[c].trace + [f])])
  }

  lemma SentKeepsConns(w: World, f: Frame, m: Mode, m': Mode)
    requires Inv(w, m) && w.bound.Some? && MaySend(w, f, m, m')
    ensures ConnsOk(Sent(w, f), m') && BoundOk(Sent(w, f))
  {
    var w', c := Sent(w, f), w.bound.value;
    SentKeepsOwn(w, f, m, m');
    PendingSame(w, w');
    forall d | 0 <= d < |w'.conns| ensures ConnOk(w', d, m') {
      assert ConnOk(w, d, m);
      if d != c {
        assert FramesOk(w', d);
        assert AnswersOk(w', d, m');
      }
    }
  }

  lemma SentKeepsOwn(w: World, f: Frame, m: Mode, m': Mode)
    requires Inv(w, m) && w.bound.Some? && MaySend(w, f, m, m')
    ensures ConnOk(Sent(w, f), w.bound.value, m')
  {
    var w', c := Sent(w, f), w.bound.value;
    PendingSame(w, w');
    assert ConnOk(w, c, m);
    TraceOkSnoc(w.conns[c].trace, f);
    assert FramesOk(w', c);
    forall j: nat ensures AnswerCount(w'.conns[c].trace, j) == AnswerCount(w.conns[c].trace, j) {
      AnswerCountSnoc(w.conns[c].trace, f, j);
    }
    assert AnswersOk(w', c, m');
  }

  lemma SentKeepsAttach(w: World, f: Frame, m: Mode, m': Mode, i: nat)
    requires Inv(w, m) && w.bound.Some? && MaySend(w, f, m, m') && i < |w.attaches|
    ensures AttachOk(Sent(w, f), i, m')
  {
    var a := w.attaches[i];
    assert AttachOk(w, i, m);
    if Open(a) { assert SubOk(w, a.sub, m); }
    SentLeavesAttach(w, f, m, m', i);
  }

  lemma SentLeavesAttach(w: World, f: Frame, m: Mode, m': Mode, i: nat)
    requires Wf(w) && w.bound.Some? && MaySend(w, f, m, m') && i < |w.attaches| && AttachOk(w, i, m)
    requires Open(w.attaches[i]) ==> SubOk(w, w.attaches[i].sub, m)
    ensures AttachOk(Sent(w, f), i, m')
  {
    var w', c, a := Sent(w, f), w.bound.value, w.attaches[i];
    WindowsSame(w, w');
    if a.conn == c {
      AnswerCountSnoc(w.conns[c].trace, f, a.request);
      if Open(a) { DataInSnoc(w.conns[c].trace, f, w.ledger[a.sub].at, a.handle); }
    }
    if a.barrier.Settled? && a.barrier.answer.Some? { AnsweredStays(w, w', a, a.barrier.answer.value); }
  }

  lemma HasExitStays(trace: seq<Frame>, f: Frame, at: nat, h: nat)
    requires HasExit(trace, at, h)
    ensures HasExit(trace + [f], at, h)
  {
    var k :| at <= k < |trace| && trace[k].Exit? && trace[k].handle == h;
    assert (trace + [f])[k] == trace[k];
  }

  lemma SentKeepsSub(w: World, f: Frame, m: Mode, m': Mode, n: nat)
    requires Wf(w) && w.bound.Some? && MaySend(w, f, m, m') && n < |w.ledger| && SubOk(w, n, m)
    ensures SubOk(Sent(w, f), n, m')
  {
    var w', c, e := Sent(w, f), w.bound.value, w.ledger[n];
    if e.conn == c {
      var trace := w.conns[c].trace;
      DataInSnoc(trace, f, e.at, e.handle);
      if Live(w, e.handle) {
        var got := DataIn(trace, e.at, e.handle);
        if f.Data? && e.handle == f.handle {
          assert m.rest == [f.text] + m'.rest;
          assert got + Owed(w, e.handle, m) == (got + [f.text]) + Owed(w', e.handle, m');
        } else {
          assert Owed(w', e.handle, m') == Owed(w, e.handle, m);
        }
      } else if HasExit(trace, e.at, e.handle) {
        HasExitStays(trace, f, e.at, e.handle);
      }
    }
  }

  lemma SentKeeps(w: World, f: Frame, m: Mode, m': Mode)
    requires Inv(w, m) && w.bound.Some? && MaySend(w, f, m, m')
    ensures Inv(Sent(w, f), m')
  {
    var w' := Sent(w, f);
    SentKeepsConns(w, f, m, m');
    ConnsOnly(w, w', m, m');
    forall i | 0 <= i < |w'.attaches| ensures AttachOk(w', i, m') { SentKeepsAttach(w, f, m, m', i); }
    forall n | 0 <= n < |w'.ledger| ensures SubOk(w', n, m') {
      assert SubOk(w, n, m);
      SentKeepsSub(w, f, m, m', n);
    }
  }

  /** A send that throws loses the frame; the connection is counted lossy from then on. */
  function Lost(w: World, c: nat): World
    requires c < |w.conns|
  {
    var conn := w.conns[c];
    w.(conns := w.conns[c := conn.(lost := conn.lost + 1, sink := if conn.sink == [] then [] else conn.sink[1..])])
  }

  lemma LostKeeps(w: World, c: nat, m: Mode)
    requires Inv(w, m) && c < |w.conns|
    ensures Inv(Lost(w, c), m)
  {
    var w' := Lost(w, c);
    ConnsOnly(w, w', m, m);
    GrowthKeepsLedger(w, w', c, LeaseRevoked, m, m);
    GrowthKeepsAttaches(w, w', c, LeaseRevoked, m, m);
    LostKeepsConns(w, c, m);
  }

  lemma LostKeepsConns(w: World, c: nat, m: Mode)
    requires Inv(w, m) && c < |w.conns|
    ensures ConnsOk(Lost(w, c), m) && BoundOk(Lost(w, c))
  {
    var w' := Lost(w, c);
    PendingSame(w, w');
    forall d | 0 <= d < |w'.conns| ensures ConnOk(w', d, m) {
      assert ConnOk(w, d, m);
      assert FramesOk(w', d);
      assert AnswersOk(w', d, m);
    }
  }

  lemma DeliverKeeps(w: World, f: Frame, m: Mode, m': Mode)
    requires Inv(w, m) && MaySend(w, f, m, m')
    ensures Inv(Deliver(w, f), m')
  {
    if w.bound.None? {
      RestIsMoot(w, m, m');
    } else {
      var c := w.bound.value;
      var (conn, sent) := Send(w.conns[c], f);
      if sent {
        assert Deliver(w, f) == Sent(w, f);
        SentKeeps(w, f, m, m');
      } else {
        var w1 := w.(conns := w.conns[c := conn]);
        assert w1 == Lost(w, c);
        LostKeeps(w, c, m);
        var m1 := m'.(x := c);
        UnbindKeeps(w1, m, m1);
        EndKeeps(UnbindInternal(w1), c, m1, m');
      }
    }
  }

  // ---------------------------------------------------------------- flow decisions

  /** Gate and handles move together. */
  lemma GateStepKeeps(w: World, op: GateOp, m: Mode)
    requires Inv(w, m) && w.bound.Some? && !op.Exited?
    requires op.Emitted? ==> op.id in w.panes
    ensures var (gate, decisions) := Apply(w.gate, op);
      Inv(ApplyDecisions(w.(gate := gate), decisions), m)
  {
    var (gate, decisions) := Apply(w.gate, op);
    var w' := ApplyDecisions(w.(gate := gate), decisions);
    GateStepKeepsGate(w, op, gate, decisions);
    GateStepKeepsPanes(w, op, m);
    StoreTouched(w, w', m);
  }

  lemma GateStepKeepsPanes(w: World, op: GateOp, m: Mode)
    requires Inv(w, m) && !op.Exited?
    ensures var (gate, decisions) := Apply(w.gate, op);
      var w' := ApplyDecisions(w.(gate := gate), decisions);
      forall id :: id in w'.panes ==> PaneOk(w', id, m)
  {
    var (gate, decisions) := Apply(w.gate, op);
    var w' := ApplyDecisions(w.(gate := gate), decisions);
    forall id | id in w'.panes ensures PaneOk(w', id, m) {
      assert PaneOk(w, id, m);
      GateStepKeepsPane(w, op, m, id);
    }
  }

  lemma GateStepKeepsGate(w: World, op: GateOp, gate: GateState, decisions: Decisions)
    requires Wf(w) && GateOk(w) && w.bound.Some? && !op.Exited? && (op.Emitted? ==> op.id in w.panes)
    requires (gate, decisions) == Apply(w.gate, op)
    ensures GateOk(ApplyDecisions(w.(gate := gate), decisions))
  {
    ApplyKeeps(w.gate, op);
    assert forall id :: id in gate.panes ==> id in w.gate.panes || (op.Emitted? && id == op.id);
  }

  lemma GateStepKeepsPane(w: World, op: GateOp, m: Mode, id: string)
    requires Wf(w) && FlowControl.Settled(w.gate) && !op.Exited? && id in w.panes && PaneOk(w, id, m)
    ensures var (gate, decisions) := Apply(w.gate, op);
      PaneOk(ApplyDecisions(w.(gate := gate), decisions), id, m)
  {
    var (gate, decisions) := Apply(w.gate, op);
    var w' := ApplyDecisions(w.(gate := gate), decisions);
    ApplyKeeps(w.gate, op);
    assert w'.panes[id].paused == if id in decisions then decisions[id].Pause? else w.panes[id].paused;
    PaneTouched(w, w', m, id);
  }

  /** A pane record stays good when its flow state moves along with the gate. */
  lemma PaneTouched(w: World, w': World, m: Mode, id: string)
    requires Wf(w) && id in w.panes && PaneOk(w, id, m)
    requires w' == w.(gate := w'.gate, panes := w'.panes) && w'.panes.Keys == w.panes.Keys
    requires forall other :: other in w.panes ==> w'.panes[other].handle == w.panes[other].handle
    requires w'.panes[id] == w.panes[id].(paused := w'.panes[id].paused)
    requires !Dying(m, w.panes[id].handle) ==> w'.panes[id].paused == IsPaused(w'.gate, id)
    ensures PaneOk(w', id, m)
  {
    WindowsSame(w, w');
    FeedStays(w, w', w.panes[id], w'.panes[id]);
  }

  /** Pane bookkeeping that no connection, attach or ledger entry can see. */
  lemma StoreTouched(w: World, w': World, m: Mode)
    requires Inv(w, m) && w' == w.(gate := w'.gate, panes := w'.panes) && w'.panes.Keys == w.panes.Keys
    requires forall id :: id in w.panes ==>
      w'.panes[id] == w.panes[id].(paused := w'.panes[id].paused)
    ensures ConnsOk(w', m) && HandlesOk(w', m) && AttachesOk(w', m) && AllApart(w') && LedgerOk(w', m) && BoundOk(w')
  {
    WindowsSame(w, w');
    PendingSame(w, w');
    forall c | 0 <= c < |w'.conns| ensures ConnOk(w', c, m) {
      assert ConnOk(w, c, m);
      assert FramesOk(w', c);
      assert AnswersOk(w', c, m);
    }
    forall h | 0 <= h < |w'.handles| ensures HandleOk(w', h, m) { assert HandleOk(w, h, m); }
    forall i | 0 <= i < |w'.attaches| ensures AttachOk(w', i, m) {
      assert AttachOk(w, i, m);
      StoreTouchedAttach(w, w', m, i);
    }
    forall i, j | 0 <= i < j < |w'.attaches| ensures Apart(w', i, j) { assert Apart(w, i, j); }
    forall n | 0 <= n < |w'.ledger| ensures SubOk(w', n, m) { assert SubOk(w, n, m); }
  }

  lemma StoreTouchedAttach(w: World, w': World, m: Mode, i: nat)
    requires Wf(w) && w' == w.(gate := w'.gate, panes := w'.panes) && w'.panes.Keys == w.panes.Keys
    requires forall id :: id in w.panes ==>
      w'.panes[id] == w.panes[id].(paused := w'.panes[id].paused)
    requires i < |w.attaches| && AttachOk(w, i, m)
    ensures AttachOk(w', i, m)
  {
    WindowsSame(w, w');
    var a := w.attaches[i];
    if a.barrier.Settled? && a.barrier.answer.Some? { AnsweredStays(w, w', a, a.barrier.answer.value); }
  }

  lemma DeliverDataKeeps(w: World, id: string, h: nat, text: string, m: Mode, m': Mode)
    requires Inv(w, m) && MaySend(w, Data(id, h, text), m, m')
    ensures Inv(DeliverData(w, id, h, text), m')
  {
    DeliverKeeps(w, Data(id, h, text), m, m');
    var w1 := Deliver(w, Data(id, h, text));
    if w1.bound.Some? { GateStepKeeps(w1, Emitted(id, text), m'); }
  }
}
