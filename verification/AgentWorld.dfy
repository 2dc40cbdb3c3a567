/**
 * The session-survival agent as a state machine: one store of panes, the connections that bind to
 * it, the replay terminals behind the panes and the attaches in flight. One function per operation
 * of the store and of a session; `Step` runs one top-level event.
 *
 * A spawn is identified by the index of its handle, so that a pane id used again never aliases an
 * earlier pane. Frames that concern a pane carry that index next to the id the wire carries.
 */
module AgentWorld {
  import opened Chunks
  import opened FlowControl
  import opened Replay

  datatype ErrorCode = BadParams | SpawnFailed | UnknownPane | UnknownMethod | Internal

  datatype Reply =
    | Spawned(adopted: bool)
    | Done
    | Attached(snapshot: Snapshot)
    | Inventory(attached: map<string, bool>)
    | Failed(code: ErrorCode)

  datatype Frame =
    | Hello
    | Response(request: nat, reply: Reply)
    | Data(id: string, handle: nat, text: string)
    | Status(id: string, handle: nat)
    | Exit(id: string, handle: nat, code: int)
    | LeaseRevoked

  /**
   * One protocol connection. `sink` scripts the outcome of its next sends (true: sent, false: the
   * sink throws; an exhausted script sends), `trace` is what was sent, `lost` counts throws, and
   * `requests` numbers the requests dispatched so far.
   */
  datatype Conn = Conn(established: bool, ended: bool, holdsLease: bool, revoked: bool, greeted: bool,
                       sink: seq<bool>, trace: seq<Frame>, lost: nat, requests: nat)

  /** A pane record. `paused` is the state of the backend handle it owns. */
  datatype PaneRec = PaneRec(handle: nat, replay: ReplayState, replayBroken: bool, subscribed: bool,
                             holds: nat, held: seq<string>, paused: bool)

  datatype HandleState = Running | Gone(code: int) | NeverRan

  /** One spawn: its pane id and everything its backend handle has emitted while the pane lived. */
  datatype Handle = Handle(id: string, emitted: seq<string>, state: HandleState)

  datatype Barrier =
    | Refused(code: ErrorCode)
    | Waiting
    | Ready(snapshot: Snapshot)
    | Settled(answer: Option<nat>)

  /** An attach in flight or settled; `sub` is the ledger entry it opened. */
  datatype Attach = Attach(conn: nat, request: nat, id: string, handle: nat, gen: nat, sub: nat, barrier: Barrier)

  /** The ledger: connection `conn` subscribed to `handle` when its trace had length `at` and the
      handle had emitted `mark` chunks. */
  datatype Sub = Sub(conn: nat, handle: nat, at: nat, mark: nat)

  datatype World = World(panes: map<string, PaneRec>, bound: Option<nat>, destroyed: bool, bindGen: nat,
                         gate: GateState, conns: seq<Conn>, handles: seq<Handle>, attaches: seq<Attach>,
                         ledger: seq<Sub>, binds: seq<nat>)

  const Init := World(map[], None, false, 0, NewGate, [], [], [], [], [])

  predicate Live(w: World, h: nat) {
    h < |w.handles| && w.handles[h].id in w.panes && w.panes[w.handles[h].id].handle == h
  }

  /** References resolve: the holder is a connection, every pane record has a handle. */
  predicate Wf(w: World) {
    && (w.bound.Some? ==> w.bound.value < |w.conns|)
    && (forall id :: id in w.panes ==> w.panes[id].handle < |w.handles|)
    && (forall i :: 0 <= i < |w.attaches| ==> w.attaches[i].conn < |w.conns|)
  }

  /** No pane, handle, connection or attach comes or goes. */
  ghost predicate SameThings(w: World, w': World) {
    && w'.panes.Keys == w.panes.Keys
    && (forall id :: id in w.panes ==> w'.panes[id].handle == w.panes[id].handle)
    && w'.handles == w.handles && |w'.conns| == |w.conns| && w'.attaches == w.attaches
    && w'.destroyed == w.destroyed && w'.ledger == w.ledger && w'.binds == w.binds
  }

  ghost predicate SameSizes(w: World, w': World) {
    && |w'.conns| == |w.conns| && |w'.handles| == |w.handles| && |w'.attaches| == |w.attaches|
    && w'.destroyed == w.destroyed && w'.ledger == w.ledger && w'.binds == w.binds
  }

  // ---------------------------------------------------------------- sending

  /** The connection's injected sink. */
  function Send(c: Conn, f: Frame): (Conn, bool) {
    if c.sink != [] && !c.sink[0] then (c.(sink := c.sink[1..], lost := c.lost + 1), false)
    else (c.(sink := if c.sink == [] then [] else c.sink[1..], trace := c.trace + [f]), true)
  }

  function Detached(rec: PaneRec, id: string, gate: GateState): PaneRec {
    rec.(subscribed := false, holds := 0, held := [], paused := rec.paused && !IsPaused(gate, id))
  }

  function UnbindInternal(w: World): (w': World)
    requires Wf(w)
    ensures Wf(w') && SameThings(w, w')
  {
    w.(bound := None, bindGen := w.bindGen + 1, gate := NewGate,
       panes := map id | id in w.panes :: Detached(w.panes[id], id, w.gate))
  }

  /** A session's one end path; only the lease holder releases the store. */
  function End(w: World, c: nat): (w': World)
    requires Wf(w) && c < |w.conns|
    ensures Wf(w') && SameThings(w, w')
  {
    if w.conns[c].ended then w
    else
      var w1 := w.(conns := w.conns[c := w.conns[c].(ended := true)]);
      if w1.conns[c].holdsLease then UnbindInternal(w1) else w1
  }

  /** Routed frames go to the bound client; a throwing sink detaches first, then ends the session. */
  function Deliver(w: World, f: Frame): (w': World)
    requires Wf(w)
    ensures Wf(w') && SameThings(w, w')
  {
    if w.bound.None? then w
    else
      var c := w.bound.value;
      if w.conns[c].ended then w
      else
        var (conn, sent) := Send(w.conns[c], f);
        var w1 := w.(conns := w.conns[c := conn]);
        if sent then w1 else End(UnbindInternal(w1), c)
  }

  function ApplyDecisions(w: World, decisions: Decisions): (w': World)
    requires Wf(w)
    ensures Wf(w') && SameThings(w, w')
  {
    w.(panes := map id | id in w.panes ::
         if id in decisions then w.panes[id].(paused := decisions[id].Pause?) else w.panes[id])
  }

  function DeliverData(w: World, id: string, h: nat, text: string): (w': World)
    requires Wf(w)
    ensures Wf(w') && SameThings(w, w')
  {
    var w1 := Deliver(w, Data(id, h, text));
    if w1.bound.None? then w1
    else
      var (gate, decisions) := OnDataEmitted(w1.gate, id, text);
      ApplyDecisions(w1.(gate := gate), decisions)
  }

  function DeliverAll(w: World, id: string, h: nat, chunks: seq<string>): (w': World)
    requires Wf(w)
    ensures Wf(w') && SameThings(w, w')
    decreases |chunks|
  {
    if chunks == [] then w else DeliverAll(DeliverData(w, id, h, chunks[0]), id, h, chunks[1..])
  }

  function RouteData(w: World, id: string, text: string): (w': World)
    requires Wf(w)
    ensures Wf(w') && SameThings(w, w')
  {
    if w.destroyed || w.bound.None? || id !in w.panes || !w.panes[id].subscribed then w
    else
      var rec := w.panes[id];
      if rec.holds > 0 then w.(panes := w.panes[id := rec.(held := rec.held + [text])])
      else DeliverData(w, id, rec.handle, text)
  }

  function RouteStatus(w: World, id: string): (w': World)
    requires Wf(w)
    ensures Wf(w') && SameThings(w, w')
  {
    if w.destroyed || w.bound.None? || id !in w.panes || !w.panes[id].subscribed then w
    else Deliver(w, Status(id, w.panes[id].handle))
  }

  // ---------------------------------------------------------------- backend callbacks

  /** `replayFails` scripts a throwing feed, `finalStatus` whether the exit changes the status. */
  datatype HandleEvent =
    | Output(h: nat, text: string, replayFails: bool)
    | StatusChange(h: nat)
    | Exited(h: nat, code: int, finalStatus: bool)

  function FeedReplay(rec: PaneRec, text: string, fails: bool): PaneRec {
    if rec.replayBroken then rec
    else if fails then rec.(replayBroken := true)
    else rec.(replay := Feed(rec.replay, text))
  }

  /** The straggler guard drops output of a handle whose pane is gone. */
  function OnData(w: World, h: nat, text: string, replayFails: bool): (w': World)
    requires Wf(w)
    ensures Wf(w') && SameSizes(w, w')
  {
    if !Live(w, h) then w
    else
      var id := w.handles[h].id;
      var w1 := w.(handles := w.handles[h := w.handles[h].(emitted := w.handles[h].emitted + [text])],
                   panes := w.panes[id := FeedReplay(w.panes[id], text, replayFails)]);
      RouteData(w1, id, text)
  }

  function Resolve(attaches: seq<Attach>, tokens: set<nat>, snapshot: Snapshot): (r: seq<Attach>)
    ensures |r| == |attaches|
    ensures forall i :: 0 <= i < |r| ==> r[i].(barrier := Waiting) == attaches[i].(barrier := Waiting)
  {
    seq(|attaches|, i requires 0 <= i < |attaches| =>
      if i in tokens && attaches[i].barrier.Waiting? then attaches[i].(barrier := Ready(snapshot)) else attaches[i])
  }

  /** The held bytes of an open attach are the pane's last output: they go out before the exit. */
  function FlushHeld(w: World, id: string): (w': World)
    requires Wf(w) && id in w.panes
    ensures Wf(w') && SameThings(w, w')
  {
    var rec := w.panes[id];
    var w0 := w.(panes := w.panes[id := rec.(held := [])]);
    if !w.destroyed && w.bound.Some? && rec.subscribed then DeliverAll(w0, id, rec.handle, rec.held) else w0
  }

  /** The pane leaves the store; requests waiting on its replay are settled by the dispose. */
  function Forget(w: World, id: string): (w': World)
    requires Wf(w) && id in w.panes
    ensures Wf(w') && SameSizes(w, w')
  {
    var rec := w.panes[id];
    w.(panes := w.panes - {id},
       attaches := if rec.replay.disposed then w.attaches
                   else Resolve(w.attaches, Tokens(rec.replay.waiters), Screen(rec.replay)))
  }

  /** The pane leaves, and whoever listens is told. */
  function Farewell(w: World, id: string, code: int): (w': World)
    requires Wf(w) && id in w.panes
    ensures Wf(w') && SameSizes(w, w')
  {
    var rec, w1 := w.panes[id], Forget(w, id);
    if !w1.destroyed && w1.bound.Some? && rec.subscribed then Deliver(w1, Exit(id, rec.handle, code)) else w1
  }

  function PaneExited(w: World, id: string, code: int, finalStatus: bool): (w': World)
    requires Wf(w)
    ensures Wf(w') && SameSizes(w, w')
  {
    if id !in w.panes then w
    else
      var w1 := FlushHeld(w, id);
      var w2 := w1.(gate := Prune(w1.gate, id));
      var w3 := if finalStatus then RouteStatus(w2, id) else w2;
      Farewell(w3, id, code)
  }

  /** A backend handle reports its exit at most once. */
  function OnExit(w: World, h: nat, code: int, finalStatus: bool): (w': World)
    requires Wf(w)
    ensures Wf(w') && SameSizes(w, w')
  {
    if h >= |w.handles| || !w.handles[h].state.Running? then w
    else
      var w1 := PaneExited(w, w.handles[h].id, code, finalStatus);
      w1.(handles := w1.handles[h := w1.handles[h].(state := Gone(code))])
  }

  function Callback(w: World, e: HandleEvent): (w': World)
    requires Wf(w)
    ensures Wf(w') && SameSizes(w, w')
  {
    match e
    case Output(h, text, replayFails) => OnData(w, h, text, replayFails)
    case StatusChange(h) => if Live(w, h) then RouteStatus(w, w.handles[h].id) else w
    case Exited(h, code, finalStatus) => OnExit(w, h, code, finalStatus)
  }

  function Callbacks(w: World, events: seq<HandleEvent>): (w': World)
    requires Wf(w)
    ensures Wf(w') && SameSizes(w, w')
    decreases |events|
  {
    if events == [] then w else Callbacks(Callback(w, events[0]), events[1..])
  }

  // ---------------------------------------------------------------- store verbs

  function Register(w: World, c: nat, id: string): (w': World)
    requires Wf(w) && c < |w.conns|
    ensures Wf(w') && |w'.conns| == |w.conns| && |w'.handles| == |w.handles| + 1
  {
    var h := |w.handles|;
    w.(handles := w.handles + [Handle(id, [], Running)],
       panes := w.panes[id := PaneRec(h, NewReplay, false, true, 0, [], false)],
       ledger := w.ledger + [Sub(c, h, |w.conns[c].trace|, 0)])
  }

  function Unregister(w: World, id: string, h: nat): (w': World)
    requires Wf(w) && h < |w.handles| && id in w.panes
    ensures Wf(w') && |w'.conns| == |w.conns|
  {
    Forget(w, id).(handles := w.handles[h := w.handles[h].(state := NeverRan)])
  }

  /** The pane pushes to connection `c` from here on; a pane that already did has its ledger entry. */
  function Subscribed(w: World, c: nat, id: string): (w': World)
    requires Wf(w) && c < |w.conns| && id in w.panes
    ensures Wf(w') && |w'.conns| == |w.conns|
  {
    var rec := w.panes[id];
    if rec.subscribed then w
    else
      w.(panes := w.panes[id := rec.(subscribed := true)],
         ledger := w.ledger + [Sub(c, rec.handle, |w.conns[c].trace|, |w.handles[rec.handle].emitted|)])
  }

  /** Spawn, or adopt a live pane of that id. `during` is what the backend reports before it returns. */
  function SpawnPane(w: World, c: nat, id: string, backendOk: bool, during: seq<HandleEvent>): (r: (World, Reply))
    requires Wf(w) && c < |w.conns|
    ensures Wf(r.0) && |r.0.conns| == |w.conns|
  {
    if w.destroyed then (w, Failed(SpawnFailed))
    else if id in w.panes then (Subscribed(w, c, id), Spawned(true))
    else
      var h := |w.handles|;
      var w1 := RouteStatus(Register(w, c, id), id);
      if backendOk then (Callbacks(w1, during), Spawned(false))
      else (Unregister(w1, id, h), Failed(SpawnFailed))
  }

  /** write, resize and kill reach a live pane's handle, whose callbacks may run before they return. */
  function Drive(w: World, id: string, during: seq<HandleEvent>): (r: (World, Reply))
    requires Wf(w)
    ensures Wf(r.0) && |r.0.conns| == |w.conns|
  {
    if id in w.panes then (Callbacks(w, during), Done) else (w, Failed(UnknownPane))
  }

  function RefuseAttach(w: World, c: nat, request: nat, id: string, code: ErrorCode): (w': World)
    requires Wf(w) && c < |w.conns|
    ensures Wf(w') && |w'.conns| == |w.conns|
  {
    w.(attaches := w.attaches + [Attach(c, request, id, 0, w.bindGen, 0, Refused(code))])
  }

  /**
   * The synchronous part of an attach: subscribe, open the hold window, take the barrier. `fails`
   * scripts a throw of the serializer, which is called at once when the feed has caught up; the
   * window is closed again, the subscription stays.
   */
  function StartAttach(w: World, c: nat, request: nat, id: string, fails: bool): (w': World)
    requires Wf(w) && c < |w.conns|
    ensures Wf(w') && |w'.conns| == |w.conns|
  {
    if id !in w.panes then RefuseAttach(w, c, request, id, UnknownPane)
    else if w.panes[id].replayBroken || w.panes[id].holds > 0 then RefuseAttach(w, c, request, id, Internal)
    else
      var rec := w.panes[id];
      var (replay, answer) := AskSnapshot(rec.replay, |w.attaches|);
      if answer.Some? && fails then RefuseAttach(Subscribed(w, c, id), c, request, id, Internal)
      else
        var entry := Sub(c, rec.handle, |w.conns[c].trace|, |w.handles[rec.handle].emitted|);
        var barrier := if answer.Some? then Ready(answer.value) else Waiting;
        w.(panes := w.panes[id := rec.(subscribed := true, holds := rec.holds + 1, replay := replay)],
           ledger := w.ledger + [entry],
           attaches := w.attaches + [Attach(c, request, id, rec.handle, w.bindGen, |w.ledger|, barrier)])
  }

  /** Close the hold window of attach `a` and drain what it held. */
  function Release(w: World, a: Attach): (w': World)
    requires Wf(w)
    ensures Wf(w') && SameThings(w, w')
  {
    if a.gen != w.bindGen || a.id !in w.panes || w.panes[a.id].handle != a.handle then w
    else
      var rec := w.panes[a.id];
      var open := rec.(holds := if rec.holds > 0 then rec.holds - 1 else 0);
      if open.holds > 0 then w.(panes := w.panes[a.id := open])
      else
        var w1 := w.(panes := w.panes[a.id := open.(held := [])]);
        if w.bound.Some? && rec.subscribed then DeliverAll(w1, a.id, a.handle, rec.held) else w1
  }

  // ---------------------------------------------------------------- sessions

  /** Answer request `k` of connection `c`; a sink that throws loses the answer. */
  function Answer(w: World, c: nat, k: nat, reply: Reply): (w': World)
    requires Wf(w) && c < |w.conns|
    ensures Wf(w') && SameThings(w, w')
  {
    if w.conns[c].ended then w else w.(conns := w.conns[c := Send(w.conns[c], Response(k, reply)).0])
  }

  datatype Request =
    | Malformed
    | Spawn(id: string, backendOk: bool, during: seq<HandleEvent>)
    | Write(id: string, during: seq<HandleEvent>)
    | Resize(id: string, during: seq<HandleEvent>)
    | Kill(id: string, during: seq<HandleEvent>)
    | AttachTo(id: string, snapshotFails: bool)
    | Sessions
    | UnknownVerb

  function Attachment(w: World): map<string, bool> {
    map id | id in w.panes :: w.bound.Some? && w.panes[id].subscribed
  }

  function Serve(w: World, c: nat, r: Request): (r': (World, Reply))
    requires Wf(w) && c < |w.conns| && !r.AttachTo?
    ensures Wf(r'.0) && |r'.0.conns| == |w.conns|
  {
    match r
    case Malformed => (w, Failed(BadParams))
    case Spawn(id, backendOk, during) => SpawnPane(w, c, id, backendOk, during)
    case Write(id, during) => Drive(w, id, during)
    case Resize(id, during) => Drive(w, id, during)
    case Kill(id, during) => Drive(w, id, during)
    case Sessions => (w, Inventory(Attachment(w)))
    case UnknownVerb => (w, Failed(UnknownMethod))
  }

  /** The connection's next request number is taken. */
  function Numbered(w: World, c: nat): (w': World)
    requires Wf(w) && c < |w.conns|
    ensures Wf(w') && |w'.conns| == |w.conns|
  {
    w.(conns := w.conns[c := w.conns[c].(requests := w.conns[c].requests + 1)])
  }

  function Dispatch(w: World, c: nat, r: Request): (w': World)
    requires Wf(w) && c < |w.conns|
    ensures Wf(w') && |w'.conns| == |w.conns|
  {
    var k, w0 := w.conns[c].requests, Numbered(w, c);
    if r.AttachTo? then StartAttach(w0, c, k, r.id, r.snapshotFails)
    else
      var (w1, reply) := Serve(w0, c, r);
      Answer(w1, c, k, reply)
  }

  /** The continuation of attach number `i`, once its barrier has resolved. */
  function SettleAttach(w: World, i: nat): (w': World)
    requires Wf(w)
    ensures Wf(w') && |w'.conns| == |w.conns|
  {
    if i >= |w.attaches| then w
    else
      var a := w.attaches[i];
      var close := (answer: Option<nat>) => w.(attaches := w.attaches[i := a.(barrier := Settled(answer))]);
      match a.barrier
      case Waiting => w
      case Settled(_) => w
      case Refused(code) => Answer(close(None), a.conn, a.request, Failed(code))
      case Ready(snapshot) =>
        if a.id !in w.panes || w.panes[a.id].handle != a.handle then
          Answer(close(None), a.conn, a.request, Failed(UnknownPane))
        else if w.conns[a.conn].ended then close(None)
        else
          var (conn, sent) := Send(w.conns[a.conn], Response(a.request, Attached(snapshot)));
          var w1 := close(if sent then Some(|w.conns[a.conn].trace|) else None);
          Release(w1.(conns := w1.conns[a.conn := conn]), a)
  }

  /**
   * A hello, with what an embedder opens from inside the shutdown callbacks it causes: `inner` in
   * that of the holder it displaces, `after` in its own, when one of those outran it.
   */
  datatype Reconnect = Reconnect(conn: nat, inner: seq<Reconnect>, after: seq<Reconnect>)

  /** A displaced client closes its inbound path, says so in its final frame, and ends. */
  function Revoke(w: World, c: nat): (w': World)
    requires Wf(w) && c < |w.conns|
    ensures Wf(w') && SameThings(w, w')
  {
    if w.conns[c].ended then w
    else
      var conn := w.conns[c].(revoked := true, holdsLease := false);
      End(w.(conns := w.conns[c := Send(conn, LeaseRevoked).0]), c)
  }

  /** Bind while another connection holds the store steals the lease; a bind nested in the
      revocation wins over the one that caused it. */
  function Bind(w: World, r: Reconnect): (w': World)
    requires Wf(w) && r.conn < |w.conns|
    ensures Wf(w') && |w'.conns| == |w.conns| && w'.ledger == w.ledger && w'.handles == w.handles
    ensures w'.attaches == w.attaches && w'.destroyed == w.destroyed
    decreases r, 0
  {
    var w0 := w.(binds := w.binds + [r.conn]);
    if w0.bound.None? then w0.(bound := Some(r.conn))
    else
      var incumbent := w0.bound.value;
      var w1 := UnbindInternal(w0);
      var w2 := if w1.conns[incumbent].ended then w1 else Reconnects(Revoke(w1, incumbent), r.inner);
      if w2.bound.None? then w2.(bound := Some(r.conn))
      else if w2.conns[r.conn].ended then w2
      else Reconnects(Revoke(w2, r.conn), r.after)
  }

  /** A good client hello: bind, and hold the lease unless a nested bind took it meanwhile. */
  function Establish(w: World, r: Reconnect): (w': World)
    requires Wf(w)
    ensures Wf(w') && |w'.conns| == |w.conns| && w'.ledger == w.ledger && w'.handles == w.handles
    ensures w'.attaches == w.attaches && w'.destroyed == w.destroyed
    decreases r, 1
  {
    if r.conn >= |w.conns| || w.conns[r.conn].ended || w.conns[r.conn].greeted then w
    else
      var w1 := Bind(w.(conns := w.conns[r.conn := w.conns[r.conn].(greeted := true)]), r);
      var conn := w1.conns[r.conn];
      w1.(conns := w1.conns[r.conn := conn.(holdsLease := !conn.revoked, established := true)])
  }

  function Reconnects(w: World, rs: seq<Reconnect>): (w': World)
    requires Wf(w)
    ensures Wf(w') && |w'.conns| == |w.conns| && w'.ledger == w.ledger && w'.handles == w.handles
    ensures w'.attaches == w.attaches && w'.destroyed == w.destroyed
    decreases rs, 0
  {
    if rs == [] then w else Reconnects(Establish(w, rs[0]), rs[1..])
  }

  datatype Item =
    | Fatal
    | MessageError
    | GoodHello(nested: seq<Reconnect>, after: seq<Reconnect>)
    | BadHello
    | Req(request: Request)
    | Ack(id: string, bytes: nat)
    | WindowSize(size: nat, pane: Option<string>)
    | Unexpected

  function Flow(w: World, answer: (GateState, Decisions)): (w': World)
    requires Wf(w)
    ensures Wf(w') && SameThings(w, w')
  {
    if w.destroyed then w else ApplyDecisions(w.(gate := answer.0), answer.1)
  }

  function OnItem(w: World, c: nat, item: Item): (w': World)
    requires Wf(w) && c < |w.conns|
    ensures Wf(w') && |w'.conns| == |w.conns|
  {
    var conn := w.conns[c];
    if conn.ended || conn.revoked then w
    else if item.Fatal? then End(w, c)
    else if !conn.established then
      if item.GoodHello? then Establish(w, Reconnect(c, item.nested, item.after)) else End(w, c)
    else
      match item
      case Req(request) => Dispatch(w, c, request)
      case Ack(id, bytes) => Flow(w, OnAck(w.gate, id, bytes))
      case WindowSize(size, pane) => Flow(w, OnWindow(w.gate, size, pane))
      case _ => w
  }

  /** Disposing every replay settles whatever still waits on one. */
  function Abandon(attaches: seq<Attach>, panes: map<string, PaneRec>): (r: seq<Attach>)
    ensures |r| == |attaches|
    ensures forall i :: 0 <= i < |r| ==> r[i].(barrier := Waiting) == attaches[i].(barrier := Waiting)
  {
    seq(|attaches|, i requires 0 <= i < |attaches| =>
      var a := attaches[i];
      if a.barrier.Waiting? && a.id in panes then a.(barrier := Ready(Screen(panes[a.id].replay))) else a)
  }

  function Destroy(w: World): (w': World)
    requires Wf(w)
    ensures Wf(w')
  {
    if w.destroyed then w
    else UnbindInternal(w.(destroyed := true)).(panes := map[], attaches := Abandon(w.attaches, w.panes))
  }

  /** The replay terminal of a live pane parses one chunk and settles the barriers it reaches. */
  function Parse(w: World, id: string): (w': World)
    requires Wf(w)
    ensures Wf(w')
  {
    if id !in w.panes || !CanParse(w.panes[id].replay) then w
    else
      var replay := w.panes[id].replay;
      w.(panes := w.panes[id := w.panes[id].(replay := ParseNext(replay))],
         attaches := Resolve(w.attaches, TokensUpTo(replay.waiters, replay.parsed + 1), Screen(ParseNext(replay))))
  }

  // ---------------------------------------------------------------- events and runs

  datatype Event =
    | Accept
    | SetSink(c: nat, sink: seq<bool>)
    | Inbound(c: nat, item: Item)
    | EndOfInput(c: nat)
    | Backend(e: HandleEvent)
    | Parsed(id: string)
    | Settle(i: nat)
    | Shutdown

  const NewConn := Conn(false, false, false, false, false, [], [Hello], 0, 0)

  function Step(w: World, e: Event): (w': World)
    requires Wf(w)
    ensures Wf(w')
  {
    match e
    case Accept => w.(conns := w.conns + [NewConn])
    case SetSink(c, sink) => if c < |w.conns| then w.(conns := w.conns[c := w.conns[c].(sink := sink)]) else w
    case Inbound(c, item) => if c < |w.conns| then OnItem(w, c, item) else w
    case EndOfInput(c) => if c < |w.conns| then End(w, c) else w
    case Backend(e) => Callback(w, e)
    case Parsed(id) => Parse(w, id)
    case Settle(i) => SettleAttach(w, i)
    case Shutdown => Destroy(w)
  }

  function Run(w: World, events: seq<Event>): (w': World)
    requires Wf(w)
    ensures Wf(w')
    decreases |events|
  {
    if events == [] then w else Run(Step(w, events[0]), events[1..])
  }
}
