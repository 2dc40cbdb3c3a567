/** What the agent promises, over every run from the empty store. */
module AgentTheorems {
  import opened Chunks
  import opened FlowControl
  import opened Replay
  import opened AgentWorld
  import opened AgentInvariant
  import opened AgentDelivery
  import opened AgentLease
  import opened AgentRuns
  import opened AgentHistory

  function After(events: seq<Event>): (w: World)
    ensures Wf(w)
  {
    Run(Init, events)
  }

  lemma {:induction false} RunConcat(w: World, a: seq<Event>, b: seq<Event>)
    requires Wf(w)
    ensures Run(w, a + b) == Run(Run(w, a), b)
    decreases |a|
  {
    if a == [] {
      assert a + b == b;
    } else {
      RunConcat(Step(w, a[0]), a[1..], b);
      DropFirst(a, b);
    }
  }

  lemma AfterOneMore(events: seq<Event>, e: Event)
    ensures After(events + [e]) == Step(After(events), e)
  {
    RunConcat(Init, events, [e]);
    assert [e][1..] == [];
  }

  // ---------------------------------------------------------------- exactly-once reconstruction

  /** Connection `c`, which may speak, asks to attach to the live, quiet pane `id`. */
  ghost predicate CanAttach(w: World, c: nat, id: string) {
    && c < |w.conns| && w.conns[c].established && !w.conns[c].ended && !w.conns[c].revoked
    && id in w.panes && !w.panes[id].replayBroken && w.panes[id].holds == 0
  }

  /** The data of `h` from position `from` on is what follows position `at`, when nothing lies between. */
  lemma {:induction false} DataInSplit(trace: seq<Frame>, at: nat, from: nat, h: nat)
    requires at <= from <= |trace|
    ensures DataIn(trace, at, h) == DataIn(trace[..from], at, h) + DataIn(trace, from, h)
    decreases |trace|
  {
    if |trace| == from {
      assert trace[..from] == trace;
    } else {
      var front := trace[..|trace| - 1];
      DataInSplit(front, at, from, h);
      assert front[..from] == trace[..from];
    }
  }

  lemma ResponseCarriesNoData(trace: seq<Frame>, at: nat, n: nat, h: nat)
    requires at <= n < |trace| && trace[n].Response?
    ensures DataIn(trace[..n + 1], at, h) == DataIn(trace[..n], at, h)
  {
    assert trace[..n + 1] == trace[..n] + [trace[n]];
    DataInSnoc(trace[..n], trace[n], at, h);
  }

  /**
   * Seen from `w`, the attach that `c` asked for in `asked`, answered at position `n`, splits the
   * output of handle `h` in two: what was emitted before the request is in the snapshot, nothing was
   * sent between request and response, and what was emitted since is sent after the response, in
   * order and never twice. While `c` holds the store nothing is missing but what is still held.
   */
  ghost predicate Reconstructs(asked: World, w: World, c: nat, h: nat, n: nat)
    requires c < |asked.conns| && c < |w.conns| && h < |asked.handles| && h < |w.handles|
  {
    var trace, sofar, now := w.conns[c].trace, asked.handles[h].emitted, w.handles[h].emitted;
    && sofar <= now && |asked.conns[c].trace| <= n < |trace|
    && trace[n] == Response(asked.conns[c].requests, Attached(Serialized(Flatten(sofar))))
    && DataIn(trace[..n], |asked.conns[c].trace|, h) == []
    && var since := DataIn(trace, n + 1, h);
       && since <= now[|sofar|..]
       && (w.bound == Some(c) ==> since + StillHeld(w, h) == now[|sofar|..])
       && (w.bound == Some(c) ==> Flatten(sofar) + Flatten(since + StillHeld(w, h)) == Flatten(now))
  }

  function StillHeld(w: World, h: nat): seq<string> {
    if Live(w, h) then w.panes[w.handles[h].id].held else []
  }

  /**
   * Exactly-once reconstruction, for every interleaving: if the attach that `c` requested after
   * `before` has been answered by the time `after` has happened too, it reconstructs the stream.
   */
  lemma ExactlyOnce(before: seq<Event>, c: nat, id: string, after: seq<Event>, n: nat)
    requires CanAttach(After(before), c, id)
    requires var w := Run(Step(After(before), Inbound(c, Req(AttachTo(id, false)))), after);
      |After(before).attaches| < |w.attaches| && w.attaches[|After(before).attaches|].barrier == Settled(Some(n))
    ensures var asked := After(before);
      var w := Run(Step(asked, Inbound(c, Req(AttachTo(id, false)))), after);
      && w == After(before + ([Inbound(c, Req(AttachTo(id, false)))] + after))
      && c < |w.conns| && asked.panes[id].handle < |w.handles|
      && Reconstructs(asked, w, c, asked.panes[id].handle, n)
  {
    var asked, e := After(before), Inbound(c, Req(AttachTo(id, false)));
    var w1 := Step(asked, e);
    var w := Run(w1, after);
    RunConcat(Init, before, [e] + after);
    assert ([e] + after)[1..] == after;
    EveryRun(before + ([e] + after));
    RunLater(w1, after);
    AttachRecords(asked, c, id);
    StepLater(asked, e);
    LaterTransitive(asked, w1, w);
    AttachStaysRecorded(asked, w1, w, c, id);
    Reconstructed(asked, w, c, id, n);
  }

  /** The request itself is recorded: who asked, when, and after how much output. */
  ghost predicate Recorded(asked: World, w: World, c: nat, id: string)
    requires CanAttach(asked, c, id) && Wf(asked)
  {
    var i, k, h := |asked.attaches|, |asked.ledger|, asked.panes[id].handle;
    && i < |w.attaches| && k < |w.ledger|
    && w.ledger[k] == Sub(c, h, |asked.conns[c].trace|, |asked.handles[h].emitted|)
    && w.attaches[i].(barrier := Waiting) == Attach(c, asked.conns[c].requests, id, h, asked.bindGen, k, Waiting)
  }

  lemma AttachRecords(w: World, c: nat, id: string)
    requires Wf(w) && CanAttach(w, c, id)
    ensures Recorded(w, Step(w, Inbound(c, Req(AttachTo(id, false)))), c, id)
  {
  }

  lemma AttachStaysRecorded(asked: World, w1: World, w: World, c: nat, id: string)
    requires Wf(asked) && CanAttach(asked, c, id) && Recorded(asked, w1, c, id) && Later(w1, w)
    ensures Recorded(asked, w, c, id)
  {
    assert AttachGoesOn(w1.attaches[|asked.attaches|], w.attaches[|asked.attaches|]);
  }

  lemma Reconstructed(asked: World, w: World, c: nat, id: string, n: nat)
    requires Wf(asked) && CanAttach(asked, c, id) && Recorded(asked, w, c, id)
    requires Later(asked, w) && Inv(w, Quiet)
    requires w.attaches[|asked.attaches|].barrier == Settled(Some(n))
    ensures c < |w.conns| && asked.panes[id].handle < |w.handles|
    ensures Reconstructs(asked, w, c, asked.panes[id].handle, n)
  {
    var h, i, at := asked.panes[id].handle, |asked.attaches|, |asked.conns[c].trace|;
    assert HandleGoesOn(asked.handles[h], w.handles[h]);
    assert AttachOk(w, i, Quiet);
    var sofar, now := asked.handles[h].emitted, w.handles[h].emitted;
    assert now[..|sofar|] == sofar;
    AnsweredSplits(w, w.attaches[i], n);
    SinceTheMark(w, w.attaches[i].sub);
    RestOfTheStream(sofar, now, DataIn(w.conns[c].trace, n + 1, h) + StillHeld(w, h));
  }

  /** All data behind the mark of an answered attach was sent behind its response. */
  lemma AnsweredSplits(w: World, a: Attach, n: nat)
    requires SubMatches(w, a) && Answered(w, a, n)
    ensures var trace, at := w.conns[a.conn].trace, w.ledger[a.sub].at;
      at <= n < |trace| && DataIn(trace, at, a.handle) == DataIn(trace, n + 1, a.handle)
        && DataIn(trace[..n], at, a.handle) == []
  {
    var trace, at := w.conns[a.conn].trace, w.ledger[a.sub].at;
    DataInSplit(trace, at, n + 1, a.handle);
    ResponseCarriesNoData(trace, at, n, a.handle);
  }

  lemma RestOfTheStream(sofar: seq<string>, now: seq<string>, rest: seq<string>)
    requires sofar <= now
    ensures rest == now[|sofar|..] ==> Flatten(sofar) + Flatten(rest) == Flatten(now)
  {
    FlattenConcat(sofar, now[|sofar|..]);
    assert sofar + now[|sofar|..] == now;
  }

  lemma SinceTheMark(w: World, n: nat)
    requires Inv(w, Quiet) && n < |w.ledger|
    ensures var e := w.ledger[n];
      && e.conn < |w.conns| && e.handle < |w.handles| && e.mark <= |w.handles[e.handle].emitted|
      && var got, due := DataIn(w.conns[e.conn].trace, e.at, e.handle), w.handles[e.handle].emitted[e.mark..];
      && got <= due && (w.bound == Some(e.conn) ==> got + StillHeld(w, e.handle) == due)
  {
    assert SubOk(w, n, Quiet);
    var e := w.ledger[n];
    if Live(w, e.handle) { assert Owed(w, e.handle, Quiet) == StillHeld(w, e.handle); }
  }

  // ---------------------------------------------------------------- hold windows

  predicate WindowOf(w: World, i: nat, h: nat) {
    HoldWindow(w, i) && w.attaches[i].handle == h
  }

  lemma OneWindow(w: World, i: nat, j: nat, h: nat)
    requires AllApart(w) && i < j
    ensures !(WindowOf(w, i, h) && WindowOf(w, j, h))
  {
    assert j < |w.attaches| ==> Apart(w, i, j);
  }

  /** Windows are open at most once, hold bytes only while open, and belong to the current client. */
  lemma HoldWindows(events: seq<Event>, id: string)
    requires id in After(events).panes
    ensures var w := After(events); var rec := w.panes[id];
      && rec.holds <= 1
      && (rec.held != [] ==> rec.holds == 1)
      && (rec.holds == 1 ==> w.bound.Some? && rec.subscribed && WindowOn(w, rec.handle))
      && (forall i: nat, j: nat :: WindowOf(w, i, rec.handle) && WindowOf(w, j, rec.handle) ==> i == j)
      && (forall i: nat :: WindowOf(w, i, rec.handle) ==> rec.holds == 1 && w.bound == Some(w.attaches[i].conn))
  {
    EveryRun(events);
    var w := After(events);
    assert PaneOk(w, id, Quiet);
    var h := w.panes[id].handle;
    forall i: nat, j: nat | WindowOf(w, i, h) && WindowOf(w, j, h) ensures i == j {
      if i < j { OneWindow(w, i, j, h); }
      if j < i { OneWindow(w, j, i, h); }
    }
    forall i: nat | WindowOf(w, i, h)
      ensures w.panes[id].holds == 1 && w.bound == Some(w.attaches[i].conn)
    {
      assert AttachOk(w, i, Quiet);
    }
  }

  /** An attach whose connection has ended settles without touching anything but its own record. */
  lemma StaleSettleIsInert(w: World, i: nat)
    requires Wf(w) && i < |w.attaches| && w.conns[w.attaches[i].conn].ended
    ensures var w' := SettleAttach(w, i);
      w' == w.(attaches := w'.attaches) && |w'.attaches| == |w.attaches|
      && forall j :: 0 <= j < |w.attaches| && j != i ==> w'.attaches[j] == w.attaches[j]
  {
  }

  // ---------------------------------------------------------------- the lease

  ghost predicate Holds(w: World, c: nat) {
    c < |w.conns| && w.conns[c].established && w.conns[c].holdsLease && !w.conns[c].ended
  }

  /** While the store lives, being bound and holding the lease are the same thing. */
  lemma BoundIsTheHolder(events: seq<Event>, c: nat)
    requires !After(events).destroyed
    ensures After(events).bound == Some(c) <==> Holds(After(events), c)
  {
    EveryRun(events);
    var w := After(events);
    if c < |w.conns| { assert ConnOk(w, c, Quiet); }
  }

  /** The holder is the latest to have called bind, nested binds included. */
  lemma HolderIsLatestBinder(events: seq<Event>)
    ensures var w := After(events);
      w.bound.Some? ==> w.binds != [] && w.bound.value == w.binds[|w.binds| - 1]
  {
    EveryRun(events);
  }

  /** After a hello that is taken, whatever it displaces or is displaced by, the latest binder holds. */
  lemma NewestBinderWins(events: seq<Event>, c: nat, nested: seq<Reconnect>, after: seq<Reconnect>)
    requires Eligible(After(events), c)
    ensures var w := Establish(After(events), Reconnect(c, nested, after));
      w.bound.Some? && w.binds != [] && w.bound.value == w.binds[|w.binds| - 1]
  {
    EveryRun(events);
    EstablishKeeps(After(events), Reconnect(c, nested, after));
  }

  /** Ending a connection that does not hold the store leaves every pane and the holder alone. */
  lemma LateEndIsHarmless(events: seq<Event>, c: nat)
    requires !After(events).destroyed && c < |After(events).conns| && After(events).bound != Some(c)
    ensures var w, w' := After(events), End(After(events), c);
      w' == w.(conns := w'.conns) && forall d :: 0 <= d < |w.conns| && d != c ==> w'.conns[d] == w.conns[d]
  {
    BoundIsTheHolder(events, c);
    EveryRun(events);
    assert ConnOk(After(events), c, Quiet);
  }

  /**
   * Over every run, a connection that was established and holds the lease no more was displaced: it has
   * ended, and unless it lost a frame the last thing it was sent is the revocation; and nobody else was
   * ever sent one.
   */
  lemma DisplacedWereTold(events: seq<Event>, c: nat)
    requires c < |After(events).conns|
    ensures var conn := After(events).conns[c];
      && |conn.trace| > 0
      && var last := conn.trace[|conn.trace| - 1];
      && (conn.established && !conn.holdsLease ==> conn.ended && (conn.lost == 0 ==> last.LeaseRevoked?))
      && (LeaseRevoked in conn.trace ==> conn.ended && !conn.holdsLease && last.LeaseRevoked?)
  {
    EveryRun(events);
    assert ConnOk(After(events), c, Quiet);
  }

  // ---------------------------------------------------------------- frames

  /** Hello comes first and once, the revocation last; an exit is the last word on its pane, and every
      frame about a pane carries the pane's own id. */
  lemma FrameTrace(events: seq<Event>, c: nat)
    requires c < |After(events).conns|
    ensures var conn := After(events).conns[c];
      && TraceOk(conn.trace) && (conn.trace[|conn.trace| - 1].LeaseRevoked? ==> conn.ended)
      && (forall n :: 0 <= n < |conn.trace| && Concerns(conn.trace[n]) ==>
            && conn.trace[n].handle < |After(events).handles|
            && conn.trace[n].id == After(events).handles[conn.trace[n].handle].id)
  {
    EveryRun(events);
    assert ConnOk(After(events), c, Quiet);
  }

  /** Nothing is sent on a connection that has ended. */
  lemma NothingFollowsTheEnd(before: seq<Event>, after: seq<Event>, c: nat)
    requires c < |After(before).conns| && After(before).conns[c].ended
    ensures c < |After(before + after).conns|
    ensures After(before + after).conns[c].ended && After(before + after).conns[c].trace == After(before).conns[c].trace
  {
    RunConcat(Init, before, after);
    RunLater(After(before), after);
    assert ConnGoesOn(After(before).conns[c], After(before + after).conns[c]);
  }

  /**
   * A request is answered at most once; on a live connection that lost no frame, it is answered
   * exactly once unless it is an attach that has not settled yet.
   */
  lemma OneAnswerPerRequest(events: seq<Event>, c: nat, k: nat)
    requires c < |After(events).conns|
    ensures var w := After(events); var conn := w.conns[c];
      && AnswerCount(conn.trace, k) <= (if k < conn.requests then 1 else 0)
      && (k < conn.requests && conn.lost == 0 && !conn.ended && (forall i: nat :: !Pending(w, i, c, k)) ==>
            AnswerCount(conn.trace, k) == 1)
  {
    EveryRun(events);
    assert ConnOk(After(events), c, Quiet);
  }

  /** Nothing is left to parse and every continuation has run. */
  ghost predicate CaughtUp(w: World) {
    && (forall id :: id in w.panes ==> !CanParse(w.panes[id].replay))
    && (forall i :: 0 <= i < |w.attaches| ==> w.attaches[i].barrier.Waiting? || w.attaches[i].barrier.Settled?)
  }

  /** No attach is stranded: once the terminals have caught up, every request has its one answer. */
  lemma CaughtUpMeansAnswered(events: seq<Event>, c: nat, k: nat)
    requires CaughtUp(After(events)) && c < |After(events).conns|
    requires k < After(events).conns[c].requests && After(events).conns[c].lost == 0 && !After(events).conns[c].ended
    ensures AnswerCount(After(events).conns[c].trace, k) == 1
  {
    EveryRun(events);
    var w := After(events);
    forall i: nat ensures !Pending(w, i, c, k) {
      if i < |w.attaches| && w.attaches[i].barrier.Waiting? { WaitingCanGoOn(w, i); }
    }
    OneAnswerPerRequest(events, c, k);
  }

  /** Whoever waits, waits for something the terminal can still parse. */
  lemma WaitingCanGoOn(w: World, i: nat)
    requires Inv(w, Quiet) && i < |w.attaches| && w.attaches[i].barrier.Waiting?
    ensures w.attaches[i].id in w.panes && CanParse(w.panes[w.attaches[i].id].replay)
  {
    assert AttachOk(w, i, Quiet);
    var a := w.attaches[i];
    assert PaneOk(w, a.id, Quiet);
    var r := w.panes[a.id].replay;
    var waiter :| waiter in r.waiters && waiter.token == i;
  }

  // ---------------------------------------------------------------- the life of a pane

  /**
   * Every subscription, whether by spawn, adoption or attach: the data its connection was sent is
   * always an initial part of what the pane emitted since, in order; while the connection holds the
   * store nothing is missing but what an open window holds; and a pane that exited has said so, once
   * and last.
   */
  lemma PaneLife(events: seq<Event>, n: nat)
    requires n < |After(events).ledger|
    ensures var w := After(events); var e := w.ledger[n];
      && e.conn < |w.conns| && e.handle < |w.handles| && e.mark <= |w.handles[e.handle].emitted|
      && var trace, due := w.conns[e.conn].trace, w.handles[e.handle].emitted[e.mark..];
      && DataIn(trace, e.at, e.handle) <= due
      && (w.bound == Some(e.conn) ==> DataIn(trace, e.at, e.handle) + StillHeld(w, e.handle) == due)
      && (w.bound == Some(e.conn) && w.handles[e.handle].state.Gone? ==> HasExit(trace, e.at, e.handle))
      && ExitIsLast(trace, e.handle)
  {
    EveryRun(events);
    var w := After(events);
    SinceTheMark(w, n);
    assert SubOk(w, n, Quiet);
    var e := w.ledger[n];
    assert ConnOk(w, e.conn, Quiet);
    if Live(w, e.handle) { LiveMeansRunning(w, e.handle); }
  }

  /** Nothing about the pane follows its exit frame, in particular no second exit. */
  ghost predicate ExitIsLast(trace: seq<Frame>, h: nat) {
    forall p, q :: 0 <= p < q < |trace| && trace[p].Exit? && trace[p].handle == h ==> !About(trace[q], h)
  }

  lemma LiveMeansRunning(w: World, h: nat)
    requires Inv(w, Quiet) && Live(w, h)
    ensures w.handles[h].state.Running?
  {
    assert PaneOk(w, w.handles[h].id, Quiet);
  }

  /** Connection `c` may speak and asks for a pane nobody runs; its handle will be the next one. */
  predicate CanSpawn(w: World, c: nat, id: string) {
    && c < |w.conns| && w.conns[c].established && !w.conns[c].ended && !w.conns[c].revoked
    && !w.destroyed && id !in w.panes
  }

  lemma SpawnRecords(w: World, c: nat, id: string, during: seq<HandleEvent>)
    requires Wf(w) && CanSpawn(w, c, id)
    ensures var w' := Step(w, Inbound(c, Req(Spawn(id, true, during))));
      |w.ledger| < |w'.ledger| && w'.ledger[|w.ledger|] == Sub(c, |w.handles|, |w.conns[c].trace|, 0)
  {
    var w0 := Numbered(w, c);
    var registered := Register(w0, c, id);
    assert registered.ledger == w.ledger + [Sub(c, |w.handles|, |w.conns[c].trace|, 0)];
  }

  /** No frame of a trace is about a handle that does not exist yet. */
  lemma {:induction false} NothingAboutTheUnborn(trace: seq<Frame>, h: nat)
    requires forall n :: 0 <= n < |trace| && Concerns(trace[n]) ==> trace[n].handle < h
    ensures DataIn(trace, 0, h) == []
    decreases |trace|
  {
    if trace != [] { NothingAboutTheUnborn(trace[..|trace| - 1], h); }
  }

  /**
   * Whoever spawns a pane hears all of it: over every run the data its trace carries about the new
   * handle, from the first frame on, is an initial part of everything the handle ever emitted, and
   * while the connection holds the store nothing is missing but what an open window holds.
   */
  lemma SpawnHearsEverything(before: seq<Event>, c: nat, id: string, during: seq<HandleEvent>, after: seq<Event>)
    requires CanSpawn(After(before), c, id)
    ensures var h, w := |After(before).handles|, After(before + ([Inbound(c, Req(Spawn(id, true, during)))] + after));
      && c < |w.conns| && h < |w.handles|
      && var heard, emitted := DataIn(w.conns[c].trace, 0, h), w.handles[h].emitted;
      && heard <= emitted
      && (w.bound == Some(c) ==> heard + StillHeld(w, h) == emitted)
  {
    var asked, e := After(before), Inbound(c, Req(Spawn(id, true, during)));
    var w1 := Step(asked, e);
    RunConcat(Init, before, [e] + after);
    assert ([e] + after)[1..] == after;
    var w := Run(w1, after);
    EveryRun(before);
    EveryRun(before + ([e] + after));
    StepLater(asked, e);
    RunLater(w1, after);
    LaterTransitive(asked, w1, w);
    SpawnRecords(asked, c, id, during);
    HeardFromTheStart(asked, w, c, |asked.ledger|);
  }

  lemma NothingHeardBefore(asked: World, w: World, c: nat)
    requires Inv(asked, Quiet) && c < |asked.conns| && c < |w.conns| && asked.conns[c].trace <= w.conns[c].trace
    ensures var h, at := |asked.handles|, |asked.conns[c].trace|;
      DataIn(w.conns[c].trace, 0, h) == DataIn(w.conns[c].trace, at, h)
  {
    var h, old_ := |asked.handles|, asked.conns[c].trace;
    assert w.conns[c].trace[..|old_|] == old_;
    DataInSplit(w.conns[c].trace, 0, |old_|, h);
    assert ConnOk(asked, c, Quiet);
    NothingAboutTheUnborn(old_, h);
  }

  lemma HeardFromTheStart(asked: World, w: World, c: nat, n: nat)
    requires Inv(asked, Quiet) && Inv(w, Quiet) && ConnsGoOn(asked, w) && c < |asked.conns|
    requires n < |w.ledger| && w.ledger[n] == Sub(c, |asked.handles|, |asked.conns[c].trace|, 0)
    ensures var h := |asked.handles|;
      && c < |w.conns| && h < |w.handles|
      && var heard, emitted := DataIn(w.conns[c].trace, 0, h), w.handles[h].emitted;
      && heard <= emitted && (w.bound == Some(c) ==> heard + StillHeld(w, h) == emitted)
  {
    SinceTheMark(w, n);
    assert ConnGoesOn(asked.conns[c], w.conns[c]);
    NothingHeardBefore(asked, w, c);
  }

  // ---------------------------------------------------------------- flow control

  /** A handle is paused exactly when the gate says so; with no client bound none is. */
  lemma NothingStaysPausedWhileDetached(events: seq<Event>, id: string)
    requires id in After(events).panes
    ensures var w := After(events);
      && w.panes[id].paused == IsPaused(w.gate, id)
      && (w.bound.None? ==> !w.panes[id].paused)
  {
    EveryRun(events);
    assert PaneOk(After(events), id, Quiet);
  }
}
