/** What every step of the agent keeps: the invariant, element by element. */
module AgentInvariant {
  import opened Chunks
  import opened FlowControl
  import opened Replay
  import opened AgentWorld

  // ---------------------------------------------------------------- reading a trace

  function Text(f: Frame, h: nat): seq<string> {
    if f.Data? && f.handle == h then [f.text] else []
  }

  /** The data of handle `h` that a trace carries from position `at` on. */
  function DataIn(trace: seq<Frame>, at: nat, h: nat): seq<string>
    decreases |trace|
  {
    if |trace| <= at then []
    else DataIn(trace[..|trace| - 1], at, h) + Text(trace[|trace| - 1], h)
  }

  /** How many times a trace answers request `k`. */
  function AnswerCount(trace: seq<Frame>, k: nat): nat {
    if trace == [] then 0
    else
      var last := trace[|trace| - 1];
      AnswerCount(trace[..|trace| - 1], k) + if last.Response? && last.request == k then 1 else 0
  }

  predicate About(f: Frame, h: nat) {
    (f.Data? || f.Status? || f.Exit?) && f.handle == h
  }

  predicate Concerns(f: Frame) {
    f.Data? || f.Status? || f.Exit?
  }

  ghost predicate HasExit(trace: seq<Frame>, at: nat, h: nat) {
    exists n :: at <= n < |trace| && trace[n].Exit? && trace[n].handle == h
  }

  lemma DataInSnoc(trace: seq<Frame>, f: Frame, at: nat, h: nat)
    requires at <= |trace|
    ensures DataIn(trace + [f], at, h) == DataIn(trace, at, h) + Text(f, h)
  {
    assert (trace + [f])[..|trace|] == trace;
  }

  lemma AnswerCountSnoc(trace: seq<Frame>, f: Frame, k: nat)
    ensures AnswerCount(trace + [f], k) == AnswerCount(trace, k) + if f.Response? && f.request == k then 1 else 0
  {
    assert (trace + [f])[..|trace|] == trace;
  }

  /** Hello opens a trace, a revocation closes it, an exit is the last word on its pane. */
  ghost predicate TraceOk(trace: seq<Frame>) {
    && |trace| > 0 && trace[0].Hello?
    && (forall n :: 0 < n < |trace| ==> !trace[n].Hello?)
    && (forall n :: 0 <= n < |trace| && trace[n].LeaseRevoked? ==> n == |trace| - 1)
    && (forall n, j :: 0 <= n < j < |trace| && trace[n].Exit? ==> !About(trace[j], trace[n].handle))
  }

  // ---------------------------------------------------------------- the invariant

  /**
   * Where an operation stands while it runs. Chunks `rest` of handle `fh` are on their way to the
   * client; `dying` says that handle is exiting; connection `x` is detached but has not ended yet;
   * request `sk` of connection `sc` is being served.
   */
  datatype Mode = Mode(fh: int, rest: seq<string>, dying: bool, x: int, sc: int, sk: int)

  const Quiet := Mode(-1, [], false, -1, -1, -1)

  predicate Dying(m: Mode, h: nat) {
    m.dying && m.fh == h
  }

  ghost predicate BoundOk(w: World) {
    w.bound.Some? ==>
      && w.bound.value < |w.conns|
      && w.conns[w.bound.value].holdsLease && !w.conns[w.bound.value].ended
      && w.binds != [] && w.binds[|w.binds| - 1] == w.bound.value
  }

  ghost predicate FlagsOk(w: World, c: nat, m: Mode)
    requires c < |w.conns|
  {
    var conn := w.conns[c];
    && (conn.established ==> conn.greeted)
    && (conn.revoked ==> conn.ended && !conn.holdsLease)
    && (conn.holdsLease ==> conn.established)
    && (conn.established && !conn.revoked ==> conn.holdsLease)
    && (!w.destroyed && conn.holdsLease && !conn.ended && m.x != c ==> w.bound == Some(c))
  }

  ghost predicate FramesOk(w: World, c: nat)
    requires c < |w.conns|
  {
    var trace := w.conns[c].trace;
    && TraceOk(trace)
    && (trace[|trace| - 1].LeaseRevoked? ==> w.conns[c].revoked && w.conns[c].ended)
    && (w.conns[c].revoked && w.conns[c].lost == 0 ==> trace[|trace| - 1].LeaseRevoked?)
    && (forall n :: 0 <= n < |trace| && Concerns(trace[n]) ==>
          && trace[n].handle < |w.handles| && trace[n].id == w.handles[trace[n].handle].id
          && (trace[n].Exit? ==> !Live(w, trace[n].handle)))
  }

  ghost predicate Pending(w: World, i: nat, c: nat, k: nat) {
    i < |w.attaches| && w.attaches[i].conn == c && w.attaches[i].request == k && !w.attaches[i].barrier.Settled?
  }

  ghost predicate AnswersOk(w: World, c: nat, m: Mode)
    requires c < |w.conns|
  {
    var conn := w.conns[c];
    && (forall k: nat {:trigger AnswerCount(conn.trace, k)} :: AnswerCount(conn.trace, k) <= 1)
    && (forall k: nat {:trigger AnswerCount(conn.trace, k)} :: k >= conn.requests ==> AnswerCount(conn.trace, k) == 0)
    && (m.sc == c && m.sk >= 0 ==> m.sk < conn.requests && AnswerCount(conn.trace, m.sk) == 0)
    && (conn.lost == 0 && !conn.ended ==>
          forall k: nat {:trigger AnswerCount(conn.trace, k)} ::
            k < conn.requests && AnswerCount(conn.trace, k) == 0 && !(m.sc == c && m.sk == k) ==>
              exists i: nat :: Pending(w, i, c, k))
  }

  predicate Open(a: Attach) {
    a.barrier.Waiting? || a.barrier.Ready?
  }

  /** Attach `i` has a hold window open on a live pane for the current connection. */
  predicate HoldWindow(w: World, i: nat) {
    i < |w.attaches| && Open(w.attaches[i]) && w.attaches[i].gen == w.bindGen && Live(w, w.attaches[i].handle)
  }

  ghost predicate WindowOn(w: World, h: nat) {
    exists i: nat :: HoldWindow(w, i) && w.attaches[i].handle == h
  }

  ghost predicate SubMatches(w: World, a: Attach) {
    && a.sub < |w.ledger| && w.ledger[a.sub].conn == a.conn && w.ledger[a.sub].handle == a.handle
    && a.conn < |w.conns| && a.handle < |w.handles|
    && w.ledger[a.sub].mark <= |w.handles[a.handle].emitted|
  }

  /** What a snapshot asked for at ledger entry `a.sub` has to show. */
  function Before(w: World, a: Attach): Snapshot
    requires a.sub < |w.ledger| && a.handle < |w.handles|
    requires w.ledger[a.sub].mark <= |w.handles[a.handle].emitted|
  {
    Serialized(Flatten(w.handles[a.handle].emitted[..w.ledger[a.sub].mark]))
  }

  predicate Registered(r: ReplayState, token: nat) {
    token in Tokens(r.waiters)
  }

  ghost predicate AttachOk(w: World, i: nat, m: Mode)
    requires i < |w.attaches|
  {
    var a := w.attaches[i];
    && a.conn < |w.conns| && a.request < w.conns[a.conn].requests && a.gen <= w.bindGen
    && (m.sc == a.conn && m.sk == a.request ==> a.barrier == Settled(None))
    && (!a.barrier.Settled? ==> AnswerCount(w.conns[a.conn].trace, a.request) == 0)
    && (Open(a) ==>
          && SubMatches(w, a)
          && w.handles[a.handle].id == a.id
          && (a.gen == w.bindGen ==> w.bound == Some(a.conn))
          && (a.gen < w.bindGen ==> w.conns[a.conn].ended || w.destroyed || m.x == a.conn)
          && (HoldWindow(w, i) ==>
                && w.panes[a.id].holds == 1
                && (!Dying(m, a.handle) ==> DataIn(w.conns[a.conn].trace, w.ledger[a.sub].at, a.handle) == []))
          && (a.barrier.Ready? && Live(w, a.handle) ==> a.barrier.snapshot == Before(w, a))
          && (a.barrier.Waiting? ==> Live(w, a.handle) && Registered(w.panes[a.id].replay, i)))
    && (a.barrier.Settled? && a.barrier.answer.Some? ==> SubMatches(w, a) && Answered(w, a, a.barrier.answer.value))
  }

  /** The trace answers attach `a` at position `n`, with the right snapshot and no data before it. */
  ghost predicate Answered(w: World, a: Attach, n: nat)
    requires SubMatches(w, a)
  {
    var trace := w.conns[a.conn].trace;
    && w.ledger[a.sub].at <= n < |trace|
    && trace[n] == Response(a.request, Attached(Before(w, a)))
    && DataIn(trace[..n], w.ledger[a.sub].at, a.handle) == []
  }

  ghost predicate Apart(w: World, i: nat, j: nat)
    requires i < |w.attaches| && j < |w.attaches|
  {
    && (w.attaches[i].conn == w.attaches[j].conn ==> w.attaches[i].request != w.attaches[j].request)
    && (HoldWindow(w, i) && HoldWindow(w, j) ==> w.attaches[i].handle != w.attaches[j].handle)
  }

  ghost predicate WaiterOk(w: World, rec: PaneRec, waiter: Waiter)
    requires rec.handle < |w.handles|
  {
    && waiter.token < |w.attaches|
    && var a := w.attaches[waiter.token];
    && a.handle == rec.handle && a.barrier.Waiting? && SubMatches(w, a)
    && waiter.target <= |rec.replay.fed|
    && Flatten(rec.replay.fed[..waiter.target]) == Flatten(w.handles[a.handle].emitted[..w.ledger[a.sub].mark])
  }

  ghost predicate PaneOk(w: World, id: string, m: Mode)
    requires id in w.panes
  {
    var rec := w.panes[id];
    && rec.handle < |w.handles| && w.handles[rec.handle].id == id && w.handles[rec.handle].state.Running?
    && rec.holds <= 1 && (rec.held != [] ==> rec.holds == 1)
    && (rec.subscribed ==> w.bound.Some?)
    && (rec.holds == 1 ==> rec.subscribed && WindowOn(w, rec.handle))
    && (!Dying(m, rec.handle) ==> rec.paused == IsPaused(w.gate, id))
    && FeedOk(w, rec)
  }

  /** The replay has taken in what the handle emitted, and its waiters are the open attaches. */
  ghost predicate FeedOk(w: World, rec: PaneRec)
    requires rec.handle < |w.handles|
  {
    && ReplayOk(rec.replay) && !rec.replay.disposed && TokensApart(rec.replay.waiters)
    && (!rec.replayBroken ==> Flatten(rec.replay.fed) == Flatten(w.handles[rec.handle].emitted))
    && (forall waiter :: waiter in rec.replay.waiters ==> WaiterOk(w, rec, waiter))
  }

  function Owed(w: World, h: nat, m: Mode): seq<string>
    requires Live(w, h)
  {
    w.panes[w.handles[h].id].held + if m.fh == h then m.rest else []
  }

  ghost predicate SubOk(w: World, n: nat, m: Mode)
    requires n < |w.ledger|
  {
    var e := w.ledger[n];
    && e.conn < |w.conns| && e.handle < |w.handles|
    && w.conns[e.conn].established && (w.destroyed ==> w.bound != Some(e.conn))
    && e.at <= |w.conns[e.conn].trace| && e.mark <= |w.handles[e.handle].emitted|
    && var got := DataIn(w.conns[e.conn].trace, e.at, e.handle);
       var due := w.handles[e.handle].emitted[e.mark..];
    && (w.bound == Some(e.conn) ==>
          if Live(w, e.handle) then
            w.panes[w.handles[e.handle].id].subscribed && got + Owed(w, e.handle, m) == due
          else
            got == due && (w.handles[e.handle].state.Gone? ==> HasExit(w.conns[e.conn].trace, e.at, e.handle)))
    && (w.bound != Some(e.conn) ==> got <= due && (w.conns[e.conn].ended || w.destroyed || m.x == e.conn))
  }

  ghost predicate GateOk(w: World) {
    && (forall id :: id in w.gate.panes ==> id in w.panes)
    && FlowControl.Settled(w.gate)
    && (w.bound.None? ==> w.gate == NewGate)
  }

  ghost predicate HandleOk(w: World, h: nat, m: Mode)
    requires h < |w.handles|
  {
    w.handles[h].state.Running? ==> Live(w, h) || w.destroyed || Dying(m, h)
  }

  ghost predicate ConnOk(w: World, c: nat, m: Mode)
    requires c < |w.conns|
  {
    FlagsOk(w, c, m) && FramesOk(w, c) && AnswersOk(w, c, m)
  }

  ghost predicate ConnsOk(w: World, m: Mode) {
    forall c :: 0 <= c < |w.conns| ==> ConnOk(w, c, m)
  }

  ghost predicate PanesOk(w: World, m: Mode) {
    && (w.destroyed ==> w.panes == map[])
    && (forall id :: id in w.panes ==> PaneOk(w, id, m))
  }

  ghost predicate HandlesOk(w: World, m: Mode) {
    forall h :: 0 <= h < |w.handles| ==> HandleOk(w, h, m)
  }

  ghost predicate AttachesOk(w: World, m: Mode) {
    forall i :: 0 <= i < |w.attaches| ==> AttachOk(w, i, m)
  }

  ghost predicate AllApart(w: World) {
    forall i, j :: 0 <= i < j < |w.attaches| ==> Apart(w, i, j)
  }

  ghost predicate LedgerOk(w: World, m: Mode) {
    forall n :: 0 <= n < |w.ledger| ==> SubOk(w, n, m)
  }

  ghost predicate Inv(w: World, m: Mode) {
    && Wf(w) && BoundOk(w) && GateOk(w)
    && ConnsOk(w, m) && PanesOk(w, m) && HandlesOk(w, m)
    && AttachesOk(w, m) && AllApart(w) && LedgerOk(w, m)
  }

  lemma InitInv()
    ensures Inv(Init, Quiet)
  {
  }
}
