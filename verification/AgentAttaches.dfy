/** Attaches: opening the hold window, resolving the barrier, answering, draining. */
module AgentAttaches {
  import opened Chunks
  import opened FlowControl
  import opened Replay
  import opened AgentWorld
  import opened AgentInvariant
  import opened AgentSends
  import opened AgentDelivery
  import opened AgentPanes
  import opened AgentSpawns

  // ---------------------------------------------------------------- one more attach

  lemma PendingAppended(w: World, w': World, a: Attach, m: Mode, c: nat)
    requires w'.attaches == w.attaches + [a] && !a.barrier.Settled? && w'.conns == w.conns && c < |w.conns|
    requires m.sc == a.conn && m.sk == a.request
    requires AnswersOk(w, c, m)
    ensures AnswersOk(w', c, Served(m))
  {
    assert Pending(w', |w.attaches|, a.conn, a.request);
    forall i: nat, d: nat, k: nat | Pending(w, i, d, k) ensures Pending(w', i, d, k) {}
    var conn := w.conns[c];
    if conn.lost == 0 && !conn.ended {
      forall k: nat | k < conn.requests && AnswerCount(conn.trace, k) == 0
        ensures exists i: nat :: Pending(w', i, c, k)
      {
        if !(m.sc == c && m.sk == k) {
          var i: nat :| Pending(w, i, c, k);
          assert Pending(w', i, c, k);
        }
      }
    }
  }

  /** No attach so far answers request `k` of connection `c`. */
  ghost predicate Unused(w: World, c: nat, k: nat) {
    forall i :: 0 <= i < |w.attaches| && w.attaches[i].conn == c ==> w.attaches[i].request != k
  }

  // ---------------------------------------------------------------- a refused attach

  lemma RefusedKeepsPane(w: World, c: nat, k: nat, id: string, code: ErrorCode, m: Mode, m': Mode, other: string)
    requires Wf(w) && c < |w.conns| && other in w.panes && PaneOk(w, other, m) && m'.fh == m.fh && m'.dying == m.dying
    ensures PaneOk(RefuseAttach(w, c, k, id, code), other, m')
  {
    var w' := RefuseAttach(w, c, k, id, code);
    var rec := w.panes[other];
    if rec.holds == 1 {
      var i: nat :| HoldWindow(w, i) && w.attaches[i].handle == rec.handle;
      assert HoldWindow(w', i);
    }
    FeedStays(w, w', rec, rec);
  }

  lemma RefusedKeepsAttach(w: World, c: nat, k: nat, id: string, code: ErrorCode, m: Mode, m': Mode, i: nat)
    requires Inv(w, m) && c < |w.conns| && m.sc == c && m.sk == k && Unused(w, c, k) && m' == Served(m)
      && i <= |w.attaches|
    ensures AttachOk(RefuseAttach(w, c, k, id, code), i, m')
  {
    var w' := RefuseAttach(w, c, k, id, code);
    assert ConnOk(w, c, m);
    if i < |w.attaches| {
      assert AttachOk(w, i, m);
      var a := w.attaches[i];
      assert HoldWindow(w', i) == HoldWindow(w, i);
      if a.barrier.Settled? && a.barrier.answer.Some? { AnsweredStays(w, w', a, a.barrier.answer.value); }
    }
  }

  lemma RefusedKeeps(w: World, c: nat, k: nat, id: string, code: ErrorCode, m: Mode, m': Mode)
    requires Inv(w, m) && c < |w.conns| && m.sc == c && m.sk == k && Unused(w, c, k) && m' == Served(m)
    ensures Inv(RefuseAttach(w, c, k, id, code), m')
  {
    var w' := RefuseAttach(w, c, k, id, code);
    var a := w'.attaches[|w.attaches|];
    forall d | 0 <= d < |w'.conns| ensures ConnOk(w', d, m') {
      assert ConnOk(w, d, m);
      PendingAppended(w, w', a, m, d);
      assert FramesOk(w', d);
    }
    forall other | other in w'.panes ensures PaneOk(w', other, m') {
      assert PaneOk(w, other, m);
      RefusedKeepsPane(w, c, k, id, code, m, m', other);
    }
    forall h | 0 <= h < |w'.handles| ensures HandleOk(w', h, m') { assert HandleOk(w, h, m); }
    forall i | 0 <= i < |w'.attaches| ensures AttachOk(w', i, m') { RefusedKeepsAttach(w, c, k, id, code, m, m', i); }
    forall i, j | 0 <= i < j < |w'.attaches| ensures Apart(w', i, j) {
      assert AttachOk(w, i, m);
      if j < |w.attaches| { assert Apart(w, i, j); }
    }
    forall n | 0 <= n < |w'.ledger| ensures SubOk(w', n, m') { assert SubOk(w, n, m); }
  }

  // ---------------------------------------------------------------- a hold window opens

  /** An attach that is not refused: subscribed, held and barred in one instant. */
  function Opened(w: World, c: nat, k: nat, id: string): World
    requires Wf(w) && c < |w.conns| && id in w.panes
  {
    var rec := w.panes[id];
    var (replay, answer) := AskSnapshot(rec.replay, |w.attaches|);
    w.(panes := w.panes[id := rec.(subscribed := true, holds := rec.holds + 1, replay := replay)],
       ledger := w.ledger + [Sub(c, rec.handle, |w.conns[c].trace|, |w.handles[rec.handle].emitted|)],
       attaches := w.attaches + [Attach(c, k, id, rec.handle, w.bindGen, |w.ledger|,
                                        if answer.Some? then Ready(answer.value) else Waiting)])
  }

  ghost predicate CanOpen(w: World, c: nat, k: nat, id: string, m: Mode, m': Mode) {
    && Inv(w, m) && AtRest(m) && m.sc == c && m.sk == k && Unused(w, c, k) && m' == Served(m)
    && c < |w.conns| && id in w.panes && w.bound == Some(c)
    && !w.panes[id].replayBroken && w.panes[id].holds == 0
  }

  lemma LiveAfterOpen(w: World, c: nat, k: nat, id: string)
    requires Wf(w) && c < |w.conns| && id in w.panes
    ensures forall h: nat :: Live(Opened(w, c, k, id), h) == Live(w, h)
    ensures forall i: nat :: i < |w.attaches| ==> HoldWindow(Opened(w, c, k, id), i) == HoldWindow(w, i)
  {
  }

  lemma OpenedKeepsConns(w: World, c: nat, k: nat, id: string, m: Mode, m': Mode)
    requires CanOpen(w, c, k, id, m, m')
    ensures ConnsOk(Opened(w, c, k, id), m')
  {
    var w' := Opened(w, c, k, id);
    LiveAfterOpen(w, c, k, id);
    forall d | 0 <= d < |w'.conns| ensures ConnOk(w', d, m') {
      assert ConnOk(w, d, m);
      PendingAppended(w, w', w'.attaches[|w.attaches|], m, d);
      assert FramesOk(w', d);
    }
  }

  lemma OpenedKeepsItsPane(w: World, c: nat, k: nat, id: string, m: Mode, m': Mode)
    requires CanOpen(w, c, k, id, m, m')
    ensures PaneOk(Opened(w, c, k, id), id, m')
  {
    var w' := Opened(w, c, k, id);
    var rec, rec' := w.panes[id], w'.panes[id];
    assert PaneOk(w, id, m);
    RequestBarrier(rec.replay, |w.attaches|);
    LiveAfterOpen(w, c, k, id);
    assert HoldWindow(w', |w.attaches|) && w'.attaches[|w.attaches|].handle == rec.handle;
    assert rec.replay.fed[..|rec.replay.fed|] == rec.replay.fed;
    var emitted := w.handles[rec.handle].emitted;
    assert emitted[..|emitted|] == emitted;
    forall waiter | waiter in rec'.replay.waiters ensures WaiterOk(w', rec', waiter) {
      if waiter in rec.replay.waiters { assert WaiterOk(w, rec, waiter); }
    }
  }

  lemma OpenedKeepsPane(w: World, c: nat, k: nat, id: string, m: Mode, m': Mode, other: string)
    requires CanOpen(w, c, k, id, m, m') && other in w.panes && other != id
    ensures PaneOk(Opened(w, c, k, id), other, m')
  {
    var w' := Opened(w, c, k, id);
    var rec := w.panes[other];
    assert PaneOk(w, other, m);
    LiveAfterOpen(w, c, k, id);
    if rec.holds == 1 {
      var i: nat :| HoldWindow(w, i) && w.attaches[i].handle == rec.handle;
      assert HoldWindow(w', i);
    }
    FeedStays(w, w', rec, rec);
  }

  lemma OpenedKeepsAttach(w: World, c: nat, k: nat, id: string, m: Mode, m': Mode, i: nat)
    requires CanOpen(w, c, k, id, m, m') && i < |w.attaches|
    ensures AttachOk(Opened(w, c, k, id), i, m')
  {
    var w', a := Opened(w, c, k, id), w.attaches[i];
    assert AttachOk(w, i, m);
    LiveAfterOpen(w, c, k, id);
    if a.barrier.Settled? && a.barrier.answer.Some? { AnsweredStays(w, w', a, a.barrier.answer.value); }
  }

  lemma OpenedIsGood(w: World, c: nat, k: nat, id: string, m: Mode, m': Mode)
    requires CanOpen(w, c, k, id, m, m')
    ensures AttachOk(Opened(w, c, k, id), |w.attaches|, m')
  {
    var w' := Opened(w, c, k, id);
    var rec := w.panes[id];
    assert PaneOk(w, id, m) && ConnOk(w, c, m);
    LiveAfterOpen(w, c, k, id);
    RequestBarrier(rec.replay, |w.attaches|);
    var emitted := w.handles[rec.handle].emitted;
    assert emitted[..|emitted|] == emitted;
  }

  lemma OpenedKeepsSub(w: World, c: nat, k: nat, id: string, m: Mode, m': Mode, n: nat)
    requires CanOpen(w, c, k, id, m, m') && n <= |w.ledger|
    ensures SubOk(Opened(w, c, k, id), n, m')
  {
    var w' := Opened(w, c, k, id);
    LiveAfterOpen(w, c, k, id);
    assert PaneOk(w, id, m) && ConnOk(w, c, m);
    if n < |w.ledger| {
      assert SubOk(w, n, m);
      var e := w.ledger[n];
      if Live(w, e.handle) { assert Owed(w', e.handle, m') == Owed(w, e.handle, m); }
    }
  }

  lemma OpenedKeepsApart(w: World, c: nat, k: nat, id: string, m: Mode, m': Mode, i: nat, j: nat)
    requires CanOpen(w, c, k, id, m, m') && i < j <= |w.attaches|
    ensures Apart(Opened(w, c, k, id), i, j)
  {
    var w' := Opened(w, c, k, id);
    LiveAfterOpen(w, c, k, id);
    assert AttachOk(w, i, m);
    if j < |w.attaches| {
      assert Apart(w, i, j);
    } else {
      assert PaneOk(w, id, m);
    }
  }

  lemma OpenedKeeps(w: World, c: nat, k: nat, id: string, m: Mode, m': Mode)
    requires CanOpen(w, c, k, id, m, m')
    ensures Inv(Opened(w, c, k, id), m')
  {
    var w' := Opened(w, c, k, id);
    OpenedKeepsConns(w, c, k, id, m, m');
    forall other | other in w'.panes ensures PaneOk(w', other, m') {
      if other == id { OpenedKeepsItsPane(w, c, k, id, m, m'); } else { OpenedKeepsPane(w, c, k, id, m, m', other); }
    }
    LiveAfterOpen(w, c, k, id);
    forall h | 0 <= h < |w'.handles| ensures HandleOk(w', h, m') { assert HandleOk(w, h, m); }
    forall i | 0 <= i < |w'.attaches| ensures AttachOk(w', i, m') {
      if i < |w.attaches| { OpenedKeepsAttach(w, c, k, id, m, m', i); } else { OpenedIsGood(w, c, k, id, m, m'); }
    }
    forall i, j | 0 <= i < j < |w'.attaches| ensures Apart(w', i, j) { OpenedKeepsApart(w, c, k, id, m, m', i, j); }
    forall n | 0 <= n < |w'.ledger| ensures SubOk(w', n, m') { OpenedKeepsSub(w, c, k, id, m, m', n); }
  }

  /** A snapshot that fails at once leaves the subscription behind, and a refused attach. */
  lemma FailedAttachKeeps(w: World, c: nat, k: nat, id: string, m: Mode, m': Mode)
    requires CanOpen(w, c, k, id, m, m')
    ensures Inv(RefuseAttach(Subscribed(w, c, id), c, k, id, Internal), m')
  {
    SubscribedKeeps(w, c, id, m);
    RefusedKeeps(Subscribed(w, c, id), c, k, id, Internal, m, m');
  }

  lemma StartAttachKeeps(w: World, c: nat, k: nat, id: string, fails: bool, m: Mode, m': Mode)
    requires Inv(w, m) && AtRest(m) && m.sc == c && m.sk == k && Unused(w, c, k) && m' == Served(m)
    requires c < |w.conns| && (w.bound == Some(c) || w.destroyed)
    ensures Inv(StartAttach(w, c, k, id, fails), m')
  {
    if id !in w.panes {
      RefusedKeeps(w, c, k, id, UnknownPane, m, m');
    } else if w.panes[id].replayBroken || w.panes[id].holds > 0 {
      RefusedKeeps(w, c, k, id, Internal, m, m');
    } else if AskSnapshot(w.panes[id].replay, |w.attaches|).1.Some? && fails {
      FailedAttachKeeps(w, c, k, id, m, m');
    } else {
      assert StartAttach(w, c, k, id, fails) == Opened(w, c, k, id);
      OpenedKeeps(w, c, k, id, m, m');
    }
  }

  // ---------------------------------------------------------------- a barrier resolves

  lemma ParsedKeepsAttach(w: World, id: string, m: Mode, i: nat)
    requires Wf(w) && id in w.panes && PaneOk(w, id, m) && CanParse(w.panes[id].replay)
    requires i < |w.attaches| && AttachOk(w, i, m)
    ensures AttachOk(Parse(w, id), i, m)
    ensures HoldWindow(Parse(w, id), i) == HoldWindow(w, i)
  {
    var w', a := Parse(w, id), w.attaches[i];
    var r := w.panes[id].replay;
    assert forall h: nat :: Live(w', h) == Live(w, h);
    ParseSettlesItsBarrier(r);
    if w'.attaches[i] != a {
      var waiter :| waiter in r.waiters && waiter.target <= r.parsed + 1 && waiter.token == i;
      assert WaiterOk(w, w.panes[id], waiter);
      assert w'.attaches[i].barrier.snapshot == Before(w', a);
    }
    if a.barrier.Settled? && a.barrier.answer.Some? { AnsweredStays(w, w', a, a.barrier.answer.value); }
  }

  lemma ParsedWindows(w: World, id: string, m: Mode)
    requires Inv(w, m) && id in w.panes && CanParse(w.panes[id].replay)
    ensures forall h: nat :: Live(Parse(w, id), h) == Live(w, h)
    ensures forall h: nat :: WindowOn(w, h) ==> WindowOn(Parse(w, id), h)
    ensures forall i: nat, c: nat, k: nat :: Pending(Parse(w, id), i, c, k) == Pending(w, i, c, k)
  {
    var w' := Parse(w, id);
    assert PaneOk(w, id, m);
    forall h: nat | WindowOn(w, h) ensures WindowOn(w', h) {
      var i: nat :| HoldWindow(w, i) && w.attaches[i].handle == h;
      assert AttachOk(w, i, m);
      ParsedKeepsAttach(w, id, m, i);
      assert HoldWindow(w', i);
    }
  }

  /** What a parse does not settle stays as it was, waiter by waiter. */
  lemma ParsedKeepsWaiter(w: World, id: string, rec: PaneRec, rec': PaneRec, waiter: Waiter)
    requires Wf(w) && id in w.panes && CanParse(w.panes[id].replay)
    requires rec.handle < |w.handles| && WaiterOk(w, rec, waiter)
    requires waiter.token !in TokensUpTo(w.panes[id].replay.waiters, w.panes[id].replay.parsed + 1)
    requires rec'.handle == rec.handle && rec'.replay.fed == rec.replay.fed
    ensures WaiterOk(Parse(w, id), rec', waiter)
  {
  }

  lemma ParsedKeepsOwnFeed(w: World, id: string)
    requires Wf(w) && id in w.panes && CanParse(w.panes[id].replay) && FeedOk(w, w.panes[id])
    ensures FeedOk(Parse(w, id), Parse(w, id).panes[id])
  {
    var w' := Parse(w, id);
    var rec, rec' := w.panes[id], w'.panes[id];
    ParseSettlesItsBarrier(rec.replay);
    ParseKeepsTheRestWaiting(rec.replay);
    forall waiter | waiter in rec'.replay.waiters ensures WaiterOk(w', rec', waiter) {
      assert WaiterOk(w, rec, waiter);
      ParsedKeepsWaiter(w, id, rec, rec', waiter);
    }
  }

  lemma TokensBelong(w: World, rec: PaneRec, n: nat)
    requires rec.handle < |w.handles| && FeedOk(w, rec)
    ensures forall t :: t in TokensUpTo(rec.replay.waiters, n) ==>
      t < |w.attaches| && w.attaches[t].handle == rec.handle
  {
    forall t | t in TokensUpTo(rec.replay.waiters, n) ensures t < |w.attaches| && w.attaches[t].handle == rec.handle {
      var waiter :| waiter in rec.replay.waiters && waiter.token == t;
      assert WaiterOk(w, rec, waiter);
    }
  }

  lemma ParsedKeepsOtherFeed(w: World, id: string, other: string)
    requires Wf(w) && id in w.panes && CanParse(w.panes[id].replay) && FeedOk(w, w.panes[id])
    requires other in w.panes && FeedOk(w, w.panes[other]) && w.panes[other].handle != w.panes[id].handle
    ensures FeedOk(Parse(w, id), w.panes[other])
  {
    var w', rec := Parse(w, id), w.panes[other];
    TokensBelong(w, w.panes[id], w.panes[id].replay.parsed + 1);
    forall waiter | waiter in rec.replay.waiters ensures WaiterOk(w', rec, waiter) {
      assert WaiterOk(w, rec, waiter);
      ParsedKeepsWaiter(w, id, rec, rec, waiter);
    }
  }

  lemma ParsedKeepsPane(w: World, id: string, m: Mode, other: string)
    requires Inv(w, m) && id in w.panes && CanParse(w.panes[id].replay) && other in w.panes
    ensures PaneOk(Parse(w, id), other, m)
  {
    assert PaneOk(w, id, m) && PaneOk(w, other, m);
    ParsedWindows(w, id, m);
    if other == id { ParsedKeepsOwnFeed(w, id); } else { ParsedKeepsOtherFeed(w, id, other); }
  }

  lemma ParsedKeepsConns(w: World, id: string, m: Mode)
    requires Inv(w, m) && id in w.panes && CanParse(w.panes[id].replay)
    ensures ConnsOk(Parse(w, id), m)
  {
    var w' := Parse(w, id);
    ParsedWindows(w, id, m);
    forall c | 0 <= c < |w'.conns| ensures ConnOk(w', c, m) {
      assert ConnOk(w, c, m);
      assert FramesOk(w', c);
      assert AnswersOk(w', c, m);
    }
  }

  lemma ParseKeeps(w: World, id: string, m: Mode)
    requires Inv(w, m)
    ensures Inv(Parse(w, id), m)
  {
    if id in w.panes && CanParse(w.panes[id].replay) {
      var w' := Parse(w, id);
      assert PaneOk(w, id, m);
      ParsedWindows(w, id, m);
      ParsedKeepsConns(w, id, m);
      forall other | other in w'.panes ensures PaneOk(w', other, m) { ParsedKeepsPane(w, id, m, other); }
      forall h | 0 <= h < |w'.handles| ensures HandleOk(w', h, m) { assert HandleOk(w, h, m); }
      forall i | 0 <= i < |w'.attaches| ensures AttachOk(w', i, m) {
        assert AttachOk(w, i, m);
        ParsedKeepsAttach(w, id, m, i);
      }
      forall i, j | 0 <= i < j < |w'.attaches| ensures Apart(w', i, j) {
        assert Apart(w, i, j) && AttachOk(w, i, m) && AttachOk(w, j, m);
        ParsedKeepsAttach(w, id, m, i);
        ParsedKeepsAttach(w, id, m, j);
      }
      forall n | 0 <= n < |w'.ledger| ensures SubOk(w', n, m) {
        assert SubOk(w, n, m);
        var e := w.ledger[n];
        if Live(w, e.handle) { assert Owed(w', e.handle, m) == Owed(w, e.handle, m); }
      }
    }
  }
}
