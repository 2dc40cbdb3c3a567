/**
 * The store and its sessions as objects. Every method is proved to do to the objects what the
 * function of the same name does to the value `Value()`, so everything shown of runs holds of them.
 */
module SessionStore {
  import opened Chunks
  import opened FlowControl
  import opened Replay
  import opened AgentWorld

  /** One protocol connection: the flags of its closure and its injected sink. */
  class AgentSession {
    const store: AgentSessionStore
    const number: nat
    var established: bool
    var ended: bool
    var holdsLease: bool
    var revoked: bool
    var greeted: bool
    var sink: seq<bool>
    var trace: seq<Frame>
    var lost: nat
    var requests: nat

    ghost function State(): Conn
      reads this
    {
      Conn(established, ended, holdsLease, revoked, greeted, sink, trace, lost, requests)
    }

    constructor (store: AgentSessionStore, number: nat)
      ensures this.store == store && this.number == number && State() == NewConn
    {
      this.store, this.number := store, number;
      established, ended, holdsLease, revoked, greeted := false, false, false, false, false;
      sink, trace, lost, requests := [], [Hello], 0, 0;
    }

    /** The injected sink: the frame goes out, or the sink throws. */
    method Transmit(f: Frame) returns (sent: bool)
      modifies this
      ensures (State(), sent) == AgentWorld.Send(old(State()), f)
    {
      sent := sink == [] || sink[0];
      sink := if sink == [] then [] else sink[1..];
      if sent { trace := trace + [f]; } else { lost := lost + 1; }
    }

    method End()
      requires store.Valid() && store.Knows(this)
      modifies store, store.sessions
      ensures store.Valid() && store.sessions == old(store.sessions)
      ensures store.Value() == AgentWorld.End(old(store.Value()), number)
    {
      if ended { return; }
      ended := true;
      store.OnlyThisChanged(this);
      if holdsLease { store.Unbind(); }
    }

    /** Displaced: close the inbound path, send the final frame, end. */
    method OnLeaseRevoked()
      requires store.Valid() && store.Knows(this)
      modifies store, store.sessions
      ensures store.Valid() && store.sessions == old(store.sessions)
      ensures store.Value() == AgentWorld.Revoke(old(store.Value()), number)
    {
      if ended { return; }
      revoked := true;
      holdsLease := false;
      var _ := Transmit(LeaseRevoked);
      store.OnlyThisChanged(this);
      End();
    }

    /** A good client hello: bind first, then the connection counts as established. */
    method OnHello(nested: seq<Reconnect>, after: seq<Reconnect>)
      requires store.Valid() && store.Knows(this)
      modifies store, store.sessions
      ensures store.Valid() && store.sessions == old(store.sessions)
      ensures store.Value() == AgentWorld.Establish(old(store.Value()), Reconnect(number, nested, after))
      decreases Reconnect(number, nested, after), 3
    {
      if ended || greeted { return; }
      greeted := true;
      store.OnlyThisChanged(this);
      store.Bind(this, nested, after);
      Conclude();
    }

    /** Whether the lease survived the bind decides whether this connection holds it. */
    method Conclude()
      requires store.Valid() && store.Knows(this)
      modifies this
      ensures store.Valid()
      ensures var w := old(store.Value()); var conn := w.conns[number];
        store.Value() == w.(conns := w.conns[number := conn.(holdsLease := !conn.revoked, established := true)])
    {
      holdsLease := !revoked;
      established := true;
      store.OnlyThisChanged(this);
    }

    /** At most one response, and none after the end. */
    method Respond(k: nat, reply: Reply)
      requires store.Valid() && store.Knows(this)
      modifies this
      ensures store.Valid()
      ensures store.Value() == AgentWorld.Answer(old(store.Value()), number, k, reply)
    {
      if ended { return; }
      var _ := Transmit(Response(k, reply));
      store.OnlyThisChanged(this);
    }

    method Dispatch(r: Request)
      requires store.Valid() && store.Knows(this)
      modifies store, store.sessions
      ensures store.Valid() && store.sessions == old(store.sessions)
      ensures store.Value() == AgentWorld.Dispatch(old(store.Value()), number, r)
    {
      var k := NextNumber();
      if r.AttachTo? {
        store.Attach(this, k, r.id, r.snapshotFails);
        return;
      }
      var reply := Serve(r);
      Respond(k, reply);
    }

    method NextNumber() returns (k: nat)
      requires store.Valid() && store.Knows(this)
      modifies `requests
      ensures k == old(requests) && store.Valid()
      ensures store.Value() == Numbered(old(store.Value()), number)
    {
      k := requests;
      requests := requests + 1;
      store.OnlyThisChanged(this);
    }

    /** What a request other than an attach does, and its reply. */
    method Serve(r: Request) returns (reply: Reply)
      requires store.Valid() && store.Knows(this) && !r.AttachTo?
      modifies store, store.sessions
      ensures store.Valid() && store.sessions == old(store.sessions)
      ensures (store.Value(), reply) == AgentWorld.Serve(old(store.Value()), number, r)
    {
      match r {
        case Malformed => reply := Failed(BadParams);
        case Spawn(id, backendOk, during) => reply := store.Spawn(this, id, backendOk, during);
        case Write(id, during) => reply := store.Drive(id, during);
        case Resize(id, during) => reply := store.Drive(id, during);
        case Kill(id, during) => reply := store.Drive(id, during);
        case Sessions =>
          reply := Inventory(map id | id in store.panes :: store.bound != null && store.panes[id].subscribed);
        case UnknownVerb => reply := Failed(UnknownMethod);
      }
    }

    method OnItem(item: Item)
      requires store.Valid() && store.Knows(this)
      modifies store, store.sessions
      ensures store.Valid() && store.sessions == old(store.sessions)
      ensures store.Value() == AgentWorld.OnItem(old(store.Value()), number, item)
    {
      if ended || revoked { return; }
      if item.Fatal? {
        End();
      } else if !established {
        if item.GoodHello? { OnHello(item.nested, item.after); } else { End(); }
      } else {
        match item {
          case Req(request) => Dispatch(request);
          case Ack(id, bytes) => store.FlowAck(id, bytes);
          case WindowSize(size, pane) => store.FlowWindow(size, pane);
          case _ =>
        }
      }
    }
  }

  class AgentSessionStore {
    var panes: map<string, PaneRec>
    var bound: AgentSession?
    var destroyed: bool
    var bindGen: nat
    var gate: GateState
    var sessions: seq<AgentSession>
    var handles: seq<Handle>
    var attaches: seq<AgentWorld.Attach>
    var ledger: seq<Sub>
    var binds: seq<nat>

    ghost function States(): (r: seq<Conn>)
      reads this, sessions
      ensures |r| == |sessions|
    {
      seq(|sessions|, i requires 0 <= i < |sessions| reads this, sessions => sessions[i].State())
    }

    ghost function Value(): World
      reads this, sessions
    {
      World(panes, if bound == null then None else Some(bound.number), destroyed, bindGen, gate,
            States(), handles, attaches, ledger, binds)
    }

    ghost predicate Knows(s: AgentSession)
      reads this
    {
      s.number < |sessions| && sessions[s.number] == s && s.store == this
    }

    ghost predicate Valid()
      reads this, sessions
    {
      && (forall i :: 0 <= i < |sessions| ==> sessions[i].number == i && sessions[i].store == this)
      && (bound != null ==> Knows(bound))
      && Wf(Value())
    }

    constructor ()
      ensures Valid() && Value() == Init && sessions == []
    {
      panes, bound, destroyed, bindGen, gate := map[], null, false, 0, NewGate;
      sessions, handles, attaches, ledger, binds := [], [], [], [], [];
    }

    /** A stretch of code that touched one session only. */
    twostate lemma OnlyThisChanged(s: AgentSession)
      requires old(Valid()) && old(Knows(s)) && unchanged(this)
      requires forall i :: 0 <= i < |sessions| && i != s.number ==> unchanged(sessions[i])
      ensures Value() == old(Value()).(conns := old(Value()).conns[s.number := s.State()])
      ensures Valid()
    {
      assert States() == old(States())[s.number := s.State()];
    }

    // -------------------------------------------------------------- detaching

    /** Whatever the departed client's stall had paused flows again. */
    method ResumePaused()
      modifies `panes
      ensures panes == Resumed(old(panes), gate)
    {
      var rest := panes.Keys;
      while rest != {}
        modifies `panes
        invariant rest <= panes.Keys == old(panes).Keys
        invariant forall id :: id in panes ==>
          panes[id] == if id in rest then old(panes)[id] else Resumed(old(panes), gate)[id]
      {
        var id :| id in rest;
        if IsPaused(gate, id) { panes := panes[id := panes[id].(paused := false)]; }
        rest := rest - {id};
      }
    }

    method ResetSubscriptions()
      modifies `panes
      ensures panes == Unsubscribed(old(panes))
    {
      var rest := panes.Keys;
      while rest != {}
        modifies `panes
        invariant rest <= panes.Keys == old(panes).Keys
        invariant forall id :: id in panes ==>
          panes[id] == if id in rest then old(panes)[id] else Unsubscribed(old(panes))[id]
      {
        var id :| id in rest;
        panes := panes[id := panes[id].(subscribed := false, holds := 0, held := [])];
        rest := rest - {id};
      }
    }

    method Unbind()
      requires Valid()
      modifies `bound, `bindGen, `panes, `gate
      ensures Valid()
      ensures Value() == UnbindInternal(old(Value()))
    {
      bound := null;
      bindGen := bindGen + 1;
      ResumePaused();
      gate := NewGate;
      ResetSubscriptions();
      DetachedInTwoSteps(old(Value()));
      assert States() == old(States());
    }

    // -------------------------------------------------------------- delivering

    method Deliver(f: Frame)
      requires Valid()
      modifies this, sessions
      ensures Valid() && sessions == old(sessions)
      ensures Value() == AgentWorld.Deliver(old(Value()), f)
    {
      if bound == null { return; }
      var client := bound;
      if client.ended { return; }
      var sent := client.Transmit(f);
      OnlyThisChanged(client);
      if !sent {
        Unbind();
        client.End();
      }
    }

    method ApplyDecisions(decisions: Decisions)
      requires Valid()
      modifies `panes
      ensures Valid()
      ensures Value() == AgentWorld.ApplyDecisions(old(Value()), decisions)
    {
      var rest := decisions.Keys;
      while rest != {}
        modifies `panes
        invariant rest <= decisions.Keys && panes.Keys == old(panes).Keys
        invariant forall id :: id in panes ==>
          panes[id] == if id in decisions && id !in rest then old(panes)[id].(paused := decisions[id].Pause?)
                       else old(panes)[id]
      {
        var id :| id in rest;
        if id in panes { panes := panes[id := panes[id].(paused := decisions[id].Pause?)]; }
        rest := rest - {id};
      }
      assert panes == AgentWorld.ApplyDecisions(old(Value()), decisions).panes;
      assert States() == old(States());
    }

    method DeliverData(id: string, h: nat, text: string)
      requires Valid()
      modifies this, sessions
      ensures Valid() && sessions == old(sessions)
      ensures Value() == AgentWorld.DeliverData(old(Value()), id, h, text)
    {
      Deliver(Data(id, h, text));
      if bound != null {
        label sent:
        var (g, decisions) := OnDataEmitted(gate, id, text);
        gate := g;
        assert States() == old@sent(States());
        ApplyDecisions(decisions);
      }
    }

    method DeliverAll(id: string, h: nat, chunks: seq<string>)
      requires Valid()
      modifies this, sessions
      ensures Valid() && sessions == old(sessions)
      ensures Value() == AgentWorld.DeliverAll(old(Value()), id, h, chunks)
    {
      var k := 0;
      while k < |chunks|
        invariant 0 <= k <= |chunks| && Valid() && sessions == old(sessions)
        invariant AgentWorld.DeliverAll(Value(), id, h, chunks[k..]) ==
          AgentWorld.DeliverAll(old(Value()), id, h, chunks)
      {
        DeliverData(id, h, chunks[k]);
        k := k + 1;
      }
    }

    method RouteData(id: string, text: string)
      requires Valid()
      modifies this, sessions
      ensures Valid() && sessions == old(sessions)
      ensures Value() == AgentWorld.RouteData(old(Value()), id, text)
    {
      if destroyed || bound == null || id !in panes || !panes[id].subscribed { return; }
      var rec := panes[id];
      if rec.holds > 0 {
        panes := panes[id := rec.(held := rec.held + [text])];
        assert States() == old(States());
      } else {
        DeliverData(id, rec.handle, text);
      }
    }

    method RouteStatus(id: string)
      requires Valid()
      modifies this, sessions
      ensures Valid() && sessions == old(sessions)
      ensures Value() == AgentWorld.RouteStatus(old(Value()), id)
    {
      if destroyed || bound == null || id !in panes || !panes[id].subscribed { return; }
      Deliver(Status(id, panes[id].handle));
    }

    // -------------------------------------------------------------- backend callbacks

    method OnData(h: nat, text: string, replayFails: bool)
      requires Valid()
      modifies this, sessions
      ensures Valid() && sessions == old(sessions)
      ensures Value() == AgentWorld.OnData(old(Value()), h, text, replayFails)
    {
      if h >= |handles| || handles[h].id !in panes || panes[handles[h].id].handle != h { return; }
      var id := handles[h].id;
      panes := panes[id := FeedReplay(panes[id], text, replayFails)];
      handles := handles[h := handles[h].(emitted := handles[h].emitted + [text])];
      assert States() == old(States());
      RouteData(id, text);
    }

    method FlushHeld(id: string)
      requires Valid() && id in panes
      modifies this, sessions
      ensures Valid() && sessions == old(sessions)
      ensures Value() == AgentWorld.FlushHeld(old(Value()), id)
    {
      var rec := panes[id];
      var listening := !destroyed && bound != null && rec.subscribed;
      panes := panes[id := rec.(held := [])];
      assert States() == old(States());
      if listening { DeliverAll(id, rec.handle, rec.held); }
    }

    method Forget(id: string)
      requires Valid() && id in panes
      modifies `panes, `attaches
      ensures Valid()
      ensures Value() == AgentWorld.Forget(old(Value()), id)
    {
      var rec := panes[id];
      panes := panes - {id};
      if !rec.replay.disposed {
        attaches := Resolve(attaches, Tokens(rec.replay.waiters), Screen(rec.replay));
      }
      assert States() == old(States());
    }

    method PaneExited(id: string, code: int, finalStatus: bool)
      requires Valid()
      modifies this, sessions
      ensures Valid() && sessions == old(sessions)
      ensures Value() == AgentWorld.PaneExited(old(Value()), id, code, finalStatus)
    {
      if id !in panes { return; }
      FlushHeld(id);
      ForgetFlow(id);
      if finalStatus { RouteStatus(id); }
      Farewell(id, code);
    }

    method ForgetFlow(id: string)
      requires Valid()
      modifies `gate
      ensures Valid() && Value() == old(Value()).(gate := Prune(old(gate), id))
    {
      gate := Prune(gate, id);
      assert States() == old(States());
    }

    method Farewell(id: string, code: int)
      requires Valid() && id in panes
      modifies this, sessions
      ensures Valid() && sessions == old(sessions)
      ensures Value() == AgentWorld.Farewell(old(Value()), id, code)
    {
      var rec := panes[id];
      Forget(id);
      if !destroyed && bound != null && rec.subscribed { Deliver(Exit(id, rec.handle, code)); }
    }

    method OnExit(h: nat, code: int, finalStatus: bool)
      requires Valid()
      modifies this, sessions
      ensures Valid() && sessions == old(sessions)
      ensures Value() == AgentWorld.OnExit(old(Value()), h, code, finalStatus)
    {
      if h >= |handles| || !handles[h].state.Running? { return; }
      PaneExited(handles[h].id, code, finalStatus);
      label gone:
      handles := handles[h := handles[h].(state := Gone(code))];
      assert States() == old@gone(States());
    }

    method Callbacks(events: seq<HandleEvent>)
      requires Valid()
      modifies this, sessions
      ensures Valid() && sessions == old(sessions)
      ensures Value() == AgentWorld.Callbacks(old(Value()), events)
    {
      var k := 0;
      while k < |events|
        invariant 0 <= k <= |events| && Valid() && sessions == old(sessions)
        invariant AgentWorld.Callbacks(Value(), events[k..]) == AgentWorld.Callbacks(old(Value()), events)
      {
        assert events[k..][0] == events[k] && events[k..][1..] == events[k + 1..];
        Notify(events[k]);
        k := k + 1;
      }
    }

    method Notify(e: HandleEvent)
      requires Valid()
      modifies this, sessions
      ensures Valid() && sessions == old(sessions)
      ensures Value() == AgentWorld.Callback(old(Value()), e)
    {
      match e {
        case Output(h, text, replayFails) => OnData(h, text, replayFails);
        case StatusChange(h) =>
          if h < |handles| && handles[h].id in panes && panes[handles[h].id].handle == h { RouteStatus(handles[h].id); }
        case Exited(h, code, finalStatus) => OnExit(h, code, finalStatus);
      }
    }

    // -------------------------------------------------------------- verbs

    /** A live pane of that id pushes to the client from here on: never respawned, nothing replayed. */
    method Subscribe(client: AgentSession, id: string)
      requires Valid() && Knows(client) && id in panes
      modifies `panes, `ledger
      ensures Valid() && Value() == Subscribed(old(Value()), client.number, id)
    {
      var rec := panes[id];
      if rec.subscribed { return; }
      ledger := ledger + [Sub(client.number, rec.handle, |client.trace|, |handles[rec.handle].emitted|)];
      panes := panes[id := rec.(subscribed := true)];
      assert States() == old(States());
    }

    method Register(client: AgentSession, id: string)
      requires Valid() && Knows(client)
      modifies `panes, `ledger, `handles
      ensures Valid()
      ensures Value() == AgentWorld.Register(old(Value()), client.number, id)
    {
      var h := |handles|;
      ledger := ledger + [Sub(client.number, h, |client.trace|, 0)];
      handles := handles + [Handle(id, [], Running)];
      panes := panes[id := PaneRec(h, NewReplay, false, true, 0, [], false)];
      assert States() == old(States());
    }

    method Unregister(id: string, h: nat)
      requires Valid() && id in panes && h < |handles|
      modifies `panes, `attaches, `handles
      ensures Valid()
      ensures Value() == AgentWorld.Unregister(old(Value()), id, h)
    {
      Forget(id);
      handles := handles[h := handles[h].(state := NeverRan)];
      assert States() == old(States());
    }

    method Spawn(client: AgentSession, id: string, backendOk: bool, during: seq<HandleEvent>) returns (reply: Reply)
      requires Valid() && Knows(client)
      modifies this, sessions
      ensures Valid() && sessions == old(sessions)
      ensures (Value(), reply) == AgentWorld.SpawnPane(old(Value()), client.number, id, backendOk, during)
    {
      if destroyed { return Failed(SpawnFailed); }
      if id in panes {
        Subscribe(client, id);
        return Spawned(true);
      }
      var h := |handles|;
      Register(client, id);
      RouteStatus(id);
      if backendOk {
        Callbacks(during);
        return Spawned(false);
      }
      Unregister(id, h);
      return Failed(SpawnFailed);
    }

    method Drive(id: string, during: seq<HandleEvent>) returns (reply: Reply)
      requires Valid()
      modifies this, sessions
      ensures Valid() && sessions == old(sessions)
      ensures (Value(), reply) == AgentWorld.Drive(old(Value()), id, during)
    {
      if id !in panes { return Failed(UnknownPane); }
      Callbacks(during);
      return Done;
    }

    /** Subscribe, open the hold window and take the barrier, all before anything else can run. */
    method Attach(client: AgentSession, request: nat, id: string, fails: bool)
      requires Valid() && Knows(client)
      modifies `panes, `attaches, `ledger
      ensures Valid()
      ensures Value() == AgentWorld.StartAttach(old(Value()), client.number, request, id, fails)
    {
      if id !in panes {
        Refuse(client, request, id, UnknownPane);
      } else if panes[id].replayBroken || panes[id].holds > 0 {
        Refuse(client, request, id, Internal);
      } else {
        var rec := panes[id];
        var (replay, answer) := AskSnapshot(rec.replay, |attaches|);
        if answer.Some? && fails {
          Subscribe(client, id);
          Refuse(client, request, id, Internal);
          return;
        }
        panes := panes[id := rec.(subscribed := true, holds := rec.holds + 1, replay := replay)];
        attaches := attaches + [AgentWorld.Attach(client.number, request, id, rec.handle, bindGen, |ledger|,
                                                  if answer.Some? then Ready(answer.value) else Waiting)];
        ledger := ledger + [Sub(client.number, rec.handle, |client.trace|, |handles[rec.handle].emitted|)];
        assert States() == old(States());
      }
    }

    method Refuse(client: AgentSession, request: nat, id: string, code: ErrorCode)
      requires Valid() && Knows(client)
      modifies `attaches
      ensures Valid() && Value() == RefuseAttach(old(Value()), client.number, request, id, code)
    {
      attaches := attaches + [AgentWorld.Attach(client.number, request, id, 0, bindGen, 0, Refused(code))];
      assert States() == old(States());
    }

    method Release(a: AgentWorld.Attach)
      requires Valid()
      modifies this, sessions
      ensures Valid() && sessions == old(sessions)
      ensures Value() == AgentWorld.Release(old(Value()), a)
    {
      if a.gen != bindGen || a.id !in panes || panes[a.id].handle != a.handle { return; }
      var rec := panes[a.id];
      var open := rec.(holds := if rec.holds > 0 then rec.holds - 1 else 0);
      if open.holds > 0 {
        panes := panes[a.id := open];
        assert States() == old(States());
        return;
      }
      panes := panes[a.id := open.(held := [])];
      assert States() == old(States());
      if bound != null && rec.subscribed { DeliverAll(a.id, a.handle, rec.held); }
    }

    /** The continuation of attach `i`: the response first, then what the window held. */
    method Settle(i: nat)
      requires Valid()
      modifies this, sessions
      ensures Valid() && sessions == old(sessions)
      ensures Value() == SettleAttach(old(Value()), i)
    {
      if i >= |attaches| || attaches[i].barrier.Waiting? || attaches[i].barrier.Settled? { return; }
      var a := attaches[i];
      var client := sessions[a.conn];
      if a.barrier.Refused? || a.id !in panes || panes[a.id].handle != a.handle {
        Conclude(i, None);
        client.Respond(a.request, Failed(if a.barrier.Refused? then a.barrier.code else UnknownPane));
      } else if client.ended {
        Conclude(i, None);
      } else {
        var position := |client.trace|;
        var sent := client.Transmit(Response(a.request, Attached(a.barrier.snapshot)));
        OnlyThisChanged(client);
        Conclude(i, if sent then Some(position) else None);
        Release(a);
      }
    }

    method Conclude(i: nat, answer: Option<nat>)
      requires Valid() && i < |attaches|
      modifies `attaches
      ensures Valid()
      ensures Value() == old(Value()).(attaches := old(attaches)[i := old(attaches)[i].(barrier := Settled(answer))])
    {
      attaches := attaches[i := attaches[i].(barrier := Settled(answer))];
      assert States() == old(States());
    }

    // -------------------------------------------------------------- the lease

    method Bind(client: AgentSession, nested: seq<Reconnect>, after: seq<Reconnect>)
      requires Valid() && Knows(client)
      modifies this, sessions
      ensures Valid() && sessions == old(sessions)
      ensures Value() == AgentWorld.Bind(old(Value()), Reconnect(client.number, nested, after))
      decreases Reconnect(client.number, nested, after), 2
    {
      binds := binds + [client.number];
      assert States() == old(States());
      if bound != null {
        Steal(nested);
        if bound != null {
          Yield(client, after);
          return;
        }
      }
      Grant(client);
    }

    method Grant(client: AgentSession)
      requires Valid() && Knows(client)
      modifies `bound
      ensures Valid() && Value() == old(Value()).(bound := Some(client.number))
    {
      bound := client;
      assert States() == old(States());
    }

    /** A bind that a nested one outran displaces itself; `after` binds happen inside its own shutdown. */
    method Yield(client: AgentSession, after: seq<Reconnect>)
      requires Valid() && Knows(client)
      modifies this, sessions
      ensures Valid() && sessions == old(sessions)
      ensures var w, c := old(Value()), client.number;
        Value() == if w.conns[c].ended then w else Reconnects(AgentWorld.Revoke(w, c), after)
      decreases after, 1
    {
      if client.ended { return; }
      client.OnLeaseRevoked();
      ReconnectAll(after);
    }

    /** Take the store from its holder; `nested` binds happen inside the holder's shutdown callback. */
    method Steal(nested: seq<Reconnect>)
      requires Valid() && bound != null
      modifies this, sessions
      ensures Valid() && sessions == old(sessions)
      ensures var w1 := UnbindInternal(old(Value()));
        Value() == if w1.conns[old(bound).number].ended then w1
                   else Reconnects(AgentWorld.Revoke(w1, old(bound).number), nested)
      decreases nested, 1
    {
      var incumbent := bound;
      Unbind();
      if !incumbent.ended {
        incumbent.OnLeaseRevoked();
        ReconnectAll(nested);
      }
    }

    /** What an embedder does inside a shutdown callback: hellos of other connections, one by one. */
    method ReconnectAll(rs: seq<Reconnect>)
      requires Valid()
      modifies this, sessions
      ensures Valid() && sessions == old(sessions)
      ensures Value() == Reconnects(old(Value()), rs)
      decreases rs, 0
    {
      if rs == [] { return; }
      if rs[0].conn < |sessions| { sessions[rs[0].conn].OnHello(rs[0].inner, rs[0].after); }
      ReconnectAll(rs[1..]);
    }

    // -------------------------------------------------------------- flow, parsing, shutdown

    method FlowAck(id: string, bytes: nat)
      requires Valid()
      modifies `gate, `panes
      ensures Valid()
      ensures Value() == AgentWorld.Flow(old(Value()), OnAck(old(gate), id, bytes))
    {
      if destroyed { return; }
      var (g, decisions) := OnAck(gate, id, bytes);
      gate := g;
      assert States() == old(States());
      ApplyDecisions(decisions);
    }

    method FlowWindow(size: nat, pane: Option<string>)
      requires Valid()
      modifies `gate, `panes
      ensures Valid()
      ensures Value() == AgentWorld.Flow(old(Value()), OnWindow(old(gate), size, pane))
    {
      if destroyed { return; }
      var (g, decisions) := OnWindow(gate, size, pane);
      gate := g;
      assert States() == old(States());
      ApplyDecisions(decisions);
    }

    method OnParsed(id: string)
      requires Valid()
      modifies `panes, `attaches
      ensures Valid()
      ensures Value() == Parse(old(Value()), id)
    {
      if id !in panes || !CanParse(panes[id].replay) { return; }
      var replay := panes[id].replay;
      panes := panes[id := panes[id].(replay := ParseNext(replay))];
      assert States() == old(States());
      ResolveUpTo(replay);
    }

    /** Settle what the chunk just parsed was waited for. */
    method ResolveUpTo(before: ReplayState)
      requires Valid() && CanParse(before)
      modifies `attaches
      ensures Valid()
      ensures Value() == old(Value()).(attaches :=
        Resolve(old(attaches), TokensUpTo(before.waiters, before.parsed + 1), Screen(ParseNext(before))))
    {
      attaches := Resolve(attaches, TokensUpTo(before.waiters, before.parsed + 1), Screen(ParseNext(before)));
      assert States() == old(States());
    }

    /** Kill every pane; whatever still waited on a replay is settled. */
    method Destroy()
      requires Valid()
      modifies this
      ensures Valid() && sessions == old(sessions)
      ensures Value() == AgentWorld.Destroy(old(Value()))
    {
      if destroyed { return; }
      destroyed := true;
      attaches := Abandon(attaches, panes);
      assert States() == old(States());
      Unbind();
      DropPanes();
    }

    method DropPanes()
      requires Valid()
      modifies `panes
      ensures Valid() && Value() == old(Value()).(panes := map[])
    {
      panes := map[];
      assert States() == old(States());
    }

    /** The event loop: one event runs to completion before the next. */
    method OnEvent(e: Event)
      requires Valid()
      modifies this, sessions
      ensures Valid() && Value() == Step(old(Value()), e)
      ensures old(sessions) <= sessions && forall i :: |old(sessions)| <= i < |sessions| ==> fresh(sessions[i])
    {
      match e {
        case Accept => var _ := Accept();
        case SetSink(c, sink) =>
          if c < |sessions| {
            sessions[c].sink := sink;
            OnlyThisChanged(sessions[c]);
          }
        case Inbound(c, item) => if c < |sessions| { sessions[c].OnItem(item); }
        case EndOfInput(c) => if c < |sessions| { sessions[c].End(); }
        case Backend(callback) => Notify(callback);
        case Parsed(id) => OnParsed(id);
        case Settle(i) => Settle(i);
        case Shutdown => Destroy();
      }
    }

    method Accept() returns (client: AgentSession)
      requires Valid()
      modifies `sessions
      ensures Valid() && fresh(client) && sessions == old(sessions) + [client]
      ensures Value() == Step(old(Value()), Event.Accept)
    {
      client := new AgentSession(this, |sessions|);
      sessions := sessions + [client];
      assert States() == old(States()) + [NewConn];
    }
  }

  function Resumed(panes: map<string, PaneRec>, gate: GateState): map<string, PaneRec> {
    map id | id in panes :: if IsPaused(gate, id) then panes[id].(paused := false) else panes[id]
  }

  function Unsubscribed(panes: map<string, PaneRec>): map<string, PaneRec> {
    map id | id in panes :: panes[id].(subscribed := false, holds := 0, held := [])
  }

  lemma DetachedInTwoSteps(w: World)
    requires Wf(w)
    ensures Unsubscribed(Resumed(w.panes, w.gate)) == UnbindInternal(w).panes
  {
  }
}
