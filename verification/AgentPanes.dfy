/** Backend callbacks - output, status, exit - keep the invariant. */
module AgentPanes {
  import opened Chunks
  import opened FlowControl
  import opened Replay
  import opened AgentWorld
  import opened AgentInvariant
  import opened AgentSends
  import opened AgentDelivery

  // ---------------------------------------------------------------- draining a list of chunks

  /** Delivering leaves every pane's window as it was, or closed by the loss of the client. */
  ghost predicate NoWindowGrew(w: World, w': World)
    requires w'.panes.Keys == w.panes.Keys
  {
    forall id :: id in w.panes ==>
      && (w.panes[id].held == [] ==> w'.panes[id].held == [])
      && (w.panes[id].holds == 0 ==> w'.panes[id].holds == 0)
  }

  lemma DeliverOnPanes(w: World, f: Frame)
    requires Wf(w)
    ensures NoWindowGrew(w, Deliver(w, f))
  {
    if w.bound.Some? && !w.conns[w.bound.value].ended && !Send(w.conns[w.bound.value], f).1 {
      var w1 := w.(conns := w.conns[w.bound.value := Send(w.conns[w.bound.value], f).0]);
      assert NoWindowGrew(w, UnbindInternal(w1));
      assert NoWindowGrew(w, End(UnbindInternal(w1), w.bound.value));
    }
  }

  lemma DeliverDataOnPanes(w: World, id: string, h: nat, text: string)
    requires Wf(w)
    ensures NoWindowGrew(w, DeliverData(w, id, h, text))
  {
    var w1 := Deliver(w, Data(id, h, text));
    DeliverOnPanes(w, Data(id, h, text));
    if w1.bound.Some? {
      var (gate, decisions) := OnDataEmitted(w1.gate, id, text);
      assert NoWindowGrew(w1, ApplyDecisions(w1.(gate := gate), decisions));
    }
  }

  lemma {:induction false} DeliverAllKeeps(w: World, id: string, h: nat, chunks: seq<string>, m: Mode)
    requires Inv(w, m) && m.x == -1 && m.fh == h && m.rest == chunks
    requires Live(w, h) && w.handles[h].id == id && w.panes[id].held == []
    requires Dying(m, h) || w.panes[id].holds == 0
    ensures Inv(DeliverAll(w, id, h, chunks), m.(rest := []))
    ensures Live(DeliverAll(w, id, h, chunks), h) && DeliverAll(w, id, h, chunks).panes[id].held == []
    decreases |chunks|
  {
    if chunks == [] {
      assert m.(rest := []) == m;
    } else {
      var m1 := m.(rest := chunks[1..]);
      LiveHasNoExit(w, h, m);
      DeliverDataKeeps(w, id, h, chunks[0], m, m1);
      DeliverDataOnPanes(w, id, h, chunks[0]);
      DeliverAllKeeps(DeliverData(w, id, h, chunks[0]), id, h, chunks[1..], m1);
    }
  }

  /** What is on its way to nobody is owed to nobody. */
  lemma NothingOwed(w: World, m: Mode, m': Mode)
    requires Inv(w, m) && !m.dying && m' == m.(fh := -1, rest := [])
    requires m.rest == [] || w.bound.None? ||
             (m.fh >= 0 && Live(w, m.fh) && !w.panes[w.handles[m.fh].id].subscribed)
    ensures Inv(w, m')
  {
    forall d | 0 <= d < |w.conns| ensures ConnOk(w, d, m') { assert ConnOk(w, d, m); }
    forall id | id in w.panes ensures PaneOk(w, id, m') { assert PaneOk(w, id, m); }
    forall h | 0 <= h < |w.handles| ensures HandleOk(w, h, m') { assert HandleOk(w, h, m); }
    forall i | 0 <= i < |w.attaches| ensures AttachOk(w, i, m') { assert AttachOk(w, i, m); }
    forall n | 0 <= n < |w.ledger| ensures SubOk(w, n, m') { assert SubOk(w, n, m); }
  }

  // ---------------------------------------------------------------- output

  /** Push a chunk into the hold window of a pane. */
  function Held(w: World, id: string, text: string): World
    requires id in w.panes
  {
    w.(panes := w.panes[id := w.panes[id].(held := w.panes[id].held + [text])])
  }

  lemma HoldKeeps(w: World, id: string, text: string, m: Mode, m': Mode)
    requires Inv(w, m) && id in w.panes && w.panes[id].holds > 0
    requires m.fh == w.panes[id].handle && m.rest == [text] && !m.dying && m' == m.(fh := -1, rest := [])
    ensures Inv(Held(w, id, text), m')
  {
    var w', h := Held(w, id, text), w.panes[id].handle;
    assert PaneOk(w, id, m);
    WindowsSame(w, w');
    PendingSame(w, w');
    forall c | 0 <= c < |w'.conns| ensures ConnOk(w', c, m') {
      assert ConnOk(w, c, m);
      assert FramesOk(w', c);
      assert AnswersOk(w', c, m');
    }
    forall other | other in w'.panes ensures PaneOk(w', other, m') {
      assert PaneOk(w, other, m);
      FeedStays(w, w', w.panes[other], w'.panes[other]);
    }
    forall k | 0 <= k < |w'.handles| ensures HandleOk(w', k, m') { assert HandleOk(w, k, m); }
    forall i | 0 <= i < |w'.attaches| ensures AttachOk(w', i, m') { HoldKeepsAttach(w, id, text, m, m', i); }
    forall i, j | 0 <= i < j < |w'.attaches| ensures Apart(w', i, j) { assert Apart(w, i, j); }
    forall n | 0 <= n < |w'.ledger| ensures SubOk(w', n, m') {
      assert SubOk(w, n, m);
      var e := w.ledger[n];
      if Live(w, e.handle) { assert Owed(w', e.handle, m') == Owed(w, e.handle, m); }
    }
  }

  lemma HoldKeepsAttach(w: World, id: string, text: string, m: Mode, m': Mode, i: nat)
    requires Inv(w, m) && id in w.panes && !m.dying && m' == m.(fh := -1, rest := []) && i < |w.attaches|
    ensures AttachOk(Held(w, id, text), i, m')
  {
    var w', a := Held(w, id, text), w.attaches[i];
    assert AttachOk(w, i, m);
    WindowsSame(w, w');
    if a.barrier.Settled? && a.barrier.answer.Some? { AnsweredStays(w, w', a, a.barrier.answer.value); }
  }

  lemma RouteDataKeeps(w: World, id: string, text: string, m: Mode, m': Mode)
    requires Inv(w, m) && id in w.panes && m.x == -1
    requires m.fh == w.panes[id].handle && m.rest == [text] && !m.dying && m' == m.(fh := -1, rest := [])
    ensures Inv(RouteData(w, id, text), m')
  {
    assert PaneOk(w, id, m);
    var rec := w.panes[id];
    if w.bound.None? || !rec.subscribed {
      NothingOwed(w, m, m');
    } else if rec.holds > 0 {
      HoldKeeps(w, id, text, m, m');
    } else {
      SendNowKeeps(w, id, text, m, m');
    }
  }

  lemma SendNowKeeps(w: World, id: string, text: string, m: Mode, m': Mode)
    requires Inv(w, m) && id in w.panes && m.x == -1 && w.panes[id].holds == 0
    requires m.fh == w.panes[id].handle && m.rest == [text] && !m.dying && m' == m.(fh := -1, rest := [])
    ensures Inv(DeliverData(w, id, w.panes[id].handle, text), m')
  {
    var h := w.panes[id].handle;
    assert PaneOk(w, id, m);
    LiveHasNoExit(w, h, m);
    DeliverDataKeeps(w, id, h, text, m, m.(rest := []));
    NothingOwed(DeliverData(w, id, h, text), m.(rest := []), m');
  }

  /** The handle's log and the replay take the chunk in. */
  function Heard(w: World, h: nat, text: string, replayFails: bool): World
    requires Live(w, h)
  {
    var id := w.handles[h].id;
    w.(handles := w.handles[h := w.handles[h].(emitted := w.handles[h].emitted + [text])],
       panes := w.panes[id := FeedReplay(w.panes[id], text, replayFails)])
  }

  lemma HeardKeepsPane(w: World, h: nat, text: string, replayFails: bool, m: Mode, m': Mode, id: string)
    requires Wf(w) && Live(w, h) && id in w.panes && PaneOk(w, id, m) && m'.dying == m.dying && m'.fh == h && !m.dying
    ensures PaneOk(Heard(w, h, text, replayFails), id, m')
  {
    var w' := Heard(w, h, text, replayFails);
    WindowsSame(w, w');
    HeardKeepsFeed(w, h, text, replayFails, id);
  }

  lemma HeardKeepsFeed(w: World, h: nat, text: string, replayFails: bool, id: string)
    requires Wf(w) && Live(w, h) && id in w.panes && w.handles[w.panes[id].handle].id == id && FeedOk(w, w.panes[id])
    ensures FeedOk(Heard(w, h, text, replayFails), Heard(w, h, text, replayFails).panes[id])
  {
    var w' := Heard(w, h, text, replayFails);
    var rec, rec' := w.panes[id], w'.panes[id];
    FeedKeeps(rec.replay, text);
    FlattenSnoc(w.handles[h].emitted, text);
    forall waiter | waiter in rec'.replay.waiters ensures WaiterOk(w', rec', waiter) {
      assert WaiterOk(w, rec, waiter);
      HeardKeepsWaiter(w, w', rec, rec', waiter);
    }
  }

  /** More output and a longer feed leave what a waiter waits for as it was. */
  lemma HeardKeepsWaiter(w: World, w': World, rec: PaneRec, rec': PaneRec, waiter: Waiter)
    requires rec.handle < |w.handles| && WaiterOk(w, rec, waiter) && rec'.handle == rec.handle
    requires rec.replay.fed <= rec'.replay.fed && |w'.handles| == |w.handles|
    requires w'.attaches == w.attaches && w'.ledger == w.ledger && |w'.conns| == |w.conns|
    requires w.handles[rec.handle].emitted <= w'.handles[rec.handle].emitted
    ensures WaiterOk(w', rec', waiter)
  {
    var mark := w.ledger[w.attaches[waiter.token].sub].mark;
    assert rec'.replay.fed[..waiter.target] == rec.replay.fed[..waiter.target];
    assert w'.handles[rec.handle].emitted[..mark] == w.handles[rec.handle].emitted[..mark];
  }

  lemma HeardKeepsAttach(w: World, h: nat, text: string, replayFails: bool, m: Mode, m': Mode, i: nat)
    requires Inv(w, m) && Live(w, h) && i < |w.attaches| && !m.dying && m' == m.(fh := h, rest := [text])
    ensures AttachOk(Heard(w, h, text, replayFails), i, m')
  {
    var w', a := Heard(w, h, text, replayFails), w.attaches[i];
    assert AttachOk(w, i, m);
    WindowsSame(w, w');
    if Open(a) {
      var mark := w.ledger[a.sub].mark;
      assert w'.handles[a.handle].emitted[..mark] == w.handles[a.handle].emitted[..mark];
    }
    if a.barrier.Settled? && a.barrier.answer.Some? { AnsweredStays(w, w', a, a.barrier.answer.value); }
  }

  lemma HeardKeepsSub(w: World, h: nat, text: string, replayFails: bool, m: Mode, m': Mode, n: nat)
    requires Wf(w) && Live(w, h) && n < |w.ledger| && SubOk(w, n, m)
    requires m.fh == -1 && m.rest == [] && m' == m.(fh := h, rest := [text])
    ensures SubOk(Heard(w, h, text, replayFails), n, m')
  {
    var w', e := Heard(w, h, text, replayFails), w.ledger[n];
    if e.handle == h {
      var got := DataIn(w.conns[e.conn].trace, e.at, h);
      var due := w.handles[h].emitted[e.mark..];
      assert w'.handles[h].emitted[e.mark..] == due + [text];
      if w.bound == Some(e.conn) {
        assert got + Owed(w', h, m') == (got + Owed(w, h, m)) + [text];
      } else {
        assert due <= due + [text];
      }
    } else if Live(w, e.handle) {
      assert Owed(w', e.handle, m') == Owed(w, e.handle, m);
    }
  }

  lemma HeardKeepsConns(w: World, h: nat, text: string, replayFails: bool, m: Mode, m': Mode)
    requires Inv(w, m) && Live(w, h) && m' == m.(fh := h, rest := [text])
    ensures ConnsOk(Heard(w, h, text, replayFails), m')
  {
    var w' := Heard(w, h, text, replayFails);
    PendingSame(w, w');
    forall c | 0 <= c < |w'.conns| ensures ConnOk(w', c, m') {
      assert ConnOk(w, c, m);
      assert FramesOk(w', c);
      assert AnswersOk(w', c, m');
    }
  }

  lemma HeardKeeps(w: World, h: nat, text: string, replayFails: bool, m: Mode, m': Mode)
    requires Inv(w, m) && Live(w, h) && m.fh == -1 && m.rest == [] && !m.dying && m' == m.(fh := h, rest := [text])
    ensures Inv(Heard(w, h, text, replayFails), m')
  {
    var w' := Heard(w, h, text, replayFails);
    HeardKeepsConns(w, h, text, replayFails, m, m');
    forall id | id in w'.panes ensures PaneOk(w', id, m') {
      assert PaneOk(w, id, m);
      HeardKeepsPane(w, h, text, replayFails, m, m', id);
    }
    forall k | 0 <= k < |w'.handles| ensures HandleOk(w', k, m') { assert HandleOk(w, k, m); }
    forall i | 0 <= i < |w'.attaches| ensures AttachOk(w', i, m') {
      HeardKeepsAttach(w, h, text, replayFails, m, m', i);
    }
    forall i, j | 0 <= i < j < |w'.attaches| ensures Apart(w', i, j) { HeardKeepsApart(w, h, text, replayFails, i, j); }
    forall n | 0 <= n < |w'.ledger| ensures SubOk(w', n, m') {
      assert SubOk(w, n, m);
      HeardKeepsSub(w, h, text, replayFails, m, m', n);
    }
  }

  lemma HeardKeepsApart(w: World, h: nat, text: string, replayFails: bool, i: nat, j: nat)
    requires AllApart(w) && Live(w, h) && i < j < |w.attaches|
    ensures Apart(Heard(w, h, text, replayFails), i, j)
  {
    assert Apart(w, i, j);
    WindowsSame(w, Heard(w, h, text, replayFails));
  }

  /** Between operations nothing is on its way and nobody is leaving; a request may be in service. */
  predicate AtRest(m: Mode) {
    m.fh == -1 && m.rest == [] && !m.dying && m.x == -1
  }

  lemma OnDataKeeps(w: World, h: nat, text: string, replayFails: bool, m: Mode)
    requires Inv(w, m) && AtRest(m)
    ensures Inv(OnData(w, h, text, replayFails), m)
  {
    if Live(w, h) {
      var m1 := m.(fh := h, rest := [text]);
      HeardKeeps(w, h, text, replayFails, m, m1);
      RouteDataKeeps(Heard(w, h, text, replayFails), w.handles[h].id, text, m1, m);
    }
  }

  lemma RouteStatusKeeps(w: World, id: string, m: Mode)
    requires Inv(w, m) && m.x == -1 && id in w.panes
    ensures Inv(RouteStatus(w, id), m)
  {
    assert PaneOk(w, id, m);
    LiveHasNoExit(w, w.panes[id].handle, m);
    DeliverKeeps(w, Status(id, w.panes[id].handle), m, m);
  }
}
