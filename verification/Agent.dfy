/** The agent as one object: a store, its sessions, and everything that has happened to them. */
module Agent {
  import opened FlowControl
  import opened Replay
  import opened AgentWorld
  import opened AgentInvariant
  import opened AgentHistory
  import opened AgentRuns
  import opened AgentTheorems
  import opened Chunks
  import opened AgentAnswers
  import opened AgentPromises
  import opened SessionStore

  /** One more event, seen from the connections. */
  lemma OneMore(history: seq<Event>, e: Event)
    ensures After(history + [e]) == Step(After(history), e)
    ensures ConnsGoOn(After(history), After(history + [e]))
  {
    AfterOneMore(history, e);
    StepLater(After(history), e);
  }

  /** Connections that are not ended have not been revoked, and live panes have handles. */
  lemma NotEndedNotRevoked(history: seq<Event>, c: nat)
    requires c < |After(history).conns| && After(history).conns[c].revoked
    ensures After(history).conns[c].ended && !After(history).conns[c].holdsLease
  {
    EveryRun(history);
    assert ConnOk(After(history), c, Quiet);
  }

  lemma PanesHaveHandles(history: seq<Event>, id: string)
    requires id in After(history).panes
    ensures var w := After(history); var h := w.panes[id].handle;
      h < |w.handles| && w.handles[h].id == id
  {
    EveryRun(history);
    assert PaneOk(After(history), id, Quiet);
  }

  /** The attach of a session that has not ended, answered by the end of the history. */
  lemma Reattached(history: seq<Event>, c: nat, id: string, since: seq<Event>, n: nat)
    requires var asked := After(history);
      && c < |asked.conns| && asked.conns[c].established && !asked.conns[c].ended
      && id in asked.panes && !asked.panes[id].replayBroken && asked.panes[id].holds == 0
    requires var w := After(history + ([Inbound(c, Req(AttachTo(id, false)))] + since));
      |After(history).attaches| < |w.attaches| && w.attaches[|After(history).attaches|].barrier == Settled(Some(n))
    ensures var asked := After(history);
      var w := After(history + ([Inbound(c, Req(AttachTo(id, false)))] + since));
      var h := asked.panes[id].handle;
      && c < |w.conns| && h < |asked.handles| && h < |w.handles| && w.handles[h].id == id
      && Reconstructs(asked, w, c, h, n)
  {
    var asked, e := After(history), Inbound(c, Req(AttachTo(id, false)));
    if asked.conns[c].revoked { NotEndedNotRevoked(history, c); }
    RunConcat(Init, history, [e] + since);
    assert ([e] + since)[0] == e && ([e] + since)[1..] == since;
    ExactlyOnce(history, c, id, since, n);
    PanesHaveHandles(history, id);
    RunLater(After(history), [e] + since);
    var h := asked.panes[id].handle;
    assert HandleGoesOn(asked.handles[h], After(history + ([e] + since)).handles[h]);
  }

  /** The attach of a session that is still there, lost nothing, and has waited long enough. */
  lemma ReattachedHealthily(history: seq<Event>, c: nat, id: string, since: seq<Event>)
    requires var asked := After(history);
      && c < |asked.conns| && asked.conns[c].established && !asked.conns[c].ended
      && id in asked.panes && !asked.panes[id].replayBroken && asked.panes[id].holds == 0
    requires var w := After(history + ([Inbound(c, Req(AttachTo(id, false)))] + since));
      && CaughtUp(w) && Live(w, After(history).panes[id].handle)
      && c < |w.conns| && !w.conns[c].ended && w.conns[c].lost == 0
    ensures var asked := After(history);
      var w := After(history + ([Inbound(c, Req(AttachTo(id, false)))] + since));
      && asked.panes[id].handle < |asked.handles|
      && exists n: nat ::
           && n < |w.conns[c].trace|
           && w.conns[c].trace[n] == Response(asked.conns[c].requests,
                Attached(Serialized(Flatten(asked.handles[asked.panes[id].handle].emitted))))
           && OnlyAnswer(w.conns[c].trace, asked.conns[c].requests, n)
  {
    if After(history).conns[c].revoked { NotEndedNotRevoked(history, c); }
    HealthyAttachIsAnswered(history, c, id, since);
    var asked := After(history);
    var w := After(history + ([Inbound(c, Req(AttachTo(id, false)))] + since));
    var n: nat :| Reconstructs(asked, w, c, asked.panes[id].handle, n)
                  && OnlyAnswer(w.conns[c].trace, asked.conns[c].requests, n);
  }

  class AgentProcess {
    const store: AgentSessionStore
    ghost var history: seq<Event>

    ghost predicate Valid()
      reads this, store, store.sessions
    {
      store.Valid() && store.Value() == After(history)
    }

    /** The lease: a session is bound exactly while it holds it, the newest binder does, and who lost it was told. */
    ghost predicate LeaseIsExclusive()
      reads store, store.sessions
    {
      && (!store.destroyed ==> forall s :: s in store.sessions ==>
            (store.bound == s <==> s.established && s.holdsLease && !s.ended))
      && (store.bound != null ==>
            store.binds != [] && store.bound.number == store.binds[|store.binds| - 1])
      && (forall s :: s in store.sessions && s.revoked ==> s.ended && !s.holdsLease)
      && (forall s :: s in store.sessions && s.established && !s.holdsLease ==>
            s.ended && (s.lost == 0 ==> s.trace != [] && s.trace[|s.trace| - 1].LeaseRevoked?))
    }

    /** A pane holds bytes under one open window at most, pushes to the bound session only, and its
        handle is paused exactly when the gate says so. */
    ghost predicate PanesAreHonest()
      reads store
    {
      forall id :: id in store.panes ==>
        var rec := store.panes[id];
        && rec.holds <= 1 && (rec.held != [] ==> rec.holds == 1) && (rec.holds == 1 ==> rec.subscribed)
        && (rec.subscribed ==> store.bound != null)
        && rec.paused == IsPaused(store.gate, id) && (store.bound == null ==> !rec.paused)
    }

    /** Hello first and once, revocation last, nothing about a pane after its exit, one answer each. */
    ghost predicate TracesAreOrdered()
      reads store, store.sessions
    {
      forall s :: s in store.sessions ==>
        && TraceOk(s.trace)
        && (s.trace[|s.trace| - 1].LeaseRevoked? ==> s.ended)
        && (forall k: nat {:trigger AnswerCount(s.trace, k)} ::
              AnswerCount(s.trace, k) <= (if k < s.requests then 1 else 0))
    }

    lemma ValidMeansPromised()
      requires Valid()
      ensures LeaseIsExclusive() && PanesAreHonest() && TracesAreOrdered()
    {
      EveryRun(history);
      var w := After(history);
      forall s | s in store.sessions
        ensures ConnOk(w, s.number, Quiet) && w.conns[s.number] == s.State() && store.sessions[s.number] == s
      {
        assert ConnOk(w, s.number, Quiet);
      }
      forall s | s in store.sessions && !store.destroyed
        ensures store.bound == s <==> s.established && s.holdsLease && !s.ended
      {
        BoundIsTheHolder(history, s.number);
      }
      forall s | s in store.sessions && s.established && !s.holdsLease
        ensures s.ended && (s.lost == 0 ==> s.trace != [] && s.trace[|s.trace| - 1].LeaseRevoked?)
      {
        DisplacedWereTold(history, s.number);
      }
      forall s | s in store.sessions ensures TraceOk(s.trace) {
        assert FramesOk(w, s.number);
      }
      forall s, k: nat | s in store.sessions
        ensures AnswerCount(s.trace, k) <= (if k < s.requests then 1 else 0)
      {
        OneAnswerPerRequest(history, s.number, k);
      }
      forall id | id in store.panes ensures PaneOk(w, id, Quiet) && (w.bound.None? ==> !w.panes[id].paused) {
        assert PaneOk(w, id, Quiet);
        NothingStaysPausedWhileDetached(history, id);
      }
    }

    constructor ()
      ensures Valid() && history == [] && fresh(store) && store.sessions == []
    {
      store := new AgentSessionStore();
      history := [];
    }

    /** What was sent stays sent, and an ended session is silent for good. */
    twostate predicate TracesGoOn()
      reads store, store.sessions
    {
      && old(store.sessions) <= store.sessions
      && forall s :: s in old(store.sessions) && s in store.sessions ==>
           old(s.trace) <= s.trace && (old(s.ended) ==> s.ended && s.trace == old(s.trace))
    }

    twostate lemma ValuesTell()
      requires old(store.Valid()) && store.Valid() && old(store.sessions) <= store.sessions
      requires ConnsGoOn(old(store.Value()), store.Value())
      ensures TracesGoOn()
    {
      forall s | s in old(store.sessions)
        ensures old(s.trace) <= s.trace && (old(s.ended) ==> s.ended && s.trace == old(s.trace))
      {
        var c, before, now := s.number, old(store.Value()), store.Value();
        assert old(store.sessions[c] == s) && store.sessions[c] == s;
        assert before.conns[c] == old(s.State()) && now.conns[c] == s.State();
        assert ConnGoesOn(before.conns[c], now.conns[c]);
      }
    }

    /** One event runs to completion. */
    method Handle(e: Event)
      requires Valid()
      modifies this, store, store.sessions
      ensures Valid() && history == old(history) + [e]
      ensures LeaseIsExclusive() && PanesAreHonest() && TracesAreOrdered()
      ensures TracesGoOn()
      ensures forall i :: |old(store.sessions)| <= i < |store.sessions| ==> fresh(store.sessions[i])
    {
      TakeOne(e);
      ValidMeansPromised();
    }

    method TakeOne(e: Event)
      requires Valid()
      modifies this, store, store.sessions
      ensures Valid() && history == old(history) + [e] && TracesGoOn()
      ensures forall i :: |old(store.sessions)| <= i < |store.sessions| ==> fresh(store.sessions[i])
    {
      OneMore(history, e);
      store.OnEvent(e);
      history := history + [e];
      ValuesTell();
    }

    /** Any run of events leaves the objects where the run of the state machine ends. */
    method HandleAll(events: seq<Event>)
      requires Valid()
      modifies this, store, store.sessions
      ensures Valid() && history == old(history) + events
      ensures store.Value() == Run(old(store.Value()), events)
      ensures LeaseIsExclusive() && PanesAreHonest() && TracesAreOrdered()
      ensures old(store.sessions) <= store.sessions
      ensures forall i :: |old(store.sessions)| <= i < |store.sessions| ==> fresh(store.sessions[i])
    {
      var k := 0;
      ValidMeansPromised();
      assert events[..0] == [];
      while k < |events|
        invariant 0 <= k <= |events| && Valid() && history == old(history) + events[..k]
        invariant LeaseIsExclusive() && PanesAreHonest() && TracesAreOrdered()
        invariant old(store.sessions) <= store.sessions
        invariant forall i :: |old(store.sessions)| <= i < |store.sessions| ==> fresh(store.sessions[i])
      {
        Handle(events[k]);
        assert events[..k + 1] == events[..k] + [events[k]];
        k := k + 1;
      }
      assert events[..k] == events;
      RunConcat(Init, old(history), events);
    }

    /** What `id` held back for an open window. */
    ghost function HeldBack(id: string, h: nat): seq<string>
      reads store
    {
      if id in store.panes && store.panes[id].handle == h then store.panes[id].held else []
    }

    /**
     * Exactly-once reconstruction on the objects: between two states of the agent, with client `s`
     * asking first to attach to `id` and anything happening `since`, the answer carries all that was
     * emitted before and the trace goes on with what was emitted after, nothing lost and nothing twice.
     */
    twostate lemma ReattachReconstructs(s: AgentSession, id: string, since: seq<Event>, n: nat)
      requires old(Valid()) && Valid() && old(s in store.sessions) && old(store.sessions) <= store.sessions
      requires history == old(history) + ([Inbound(s.number, Req(AttachTo(id, false)))] + since)
      requires old(s.established && !s.ended && id in store.panes)
      requires old(!store.panes[id].replayBroken && store.panes[id].holds == 0)
      requires old(|store.attaches|) < |store.attaches|
        && store.attaches[old(|store.attaches|)].barrier == Settled(Some(n))
      ensures var h := old(store.panes[id].handle);
        && h < old(|store.handles|) && h < |store.handles|
        && var sofar, now := old(store.handles[h].emitted), store.handles[h].emitted;
        && sofar <= now && old(|s.trace|) <= n < |s.trace|
        && s.trace[n] == Response(old(s.requests), Attached(Serialized(Flatten(sofar))))
        && DataIn(s.trace[..n], old(|s.trace|), h) == []
        && DataIn(s.trace, n + 1, h) <= now[|sofar|..]
        && (store.bound == s ==> DataIn(s.trace, n + 1, h) + HeldBack(id, h) == now[|sofar|..])
    {
      var asked := old(store.Value());
      var c := s.number;
      assert old(store.sessions[c] == s) && store.sessions[c] == s;
      assert asked.conns[c] == old(s.State()) && store.Value().conns[c] == s.State();
      Reattached(old(history), c, id, since, n);
    }

    /** Nothing is left to parse and every continuation has run. */
    ghost predicate HasCaughtUp()
      reads store
    {
      && (forall id :: id in store.panes ==> !CanParse(store.panes[id].replay))
      && (forall i :: 0 <= i < |store.attaches| ==>
            store.attaches[i].barrier.Waiting? || store.attaches[i].barrier.Settled?)
    }

    /**
     * A healthy attach on the objects: once the agent has caught up, client `s`, still there and without
     * a lost frame, has one response to it, and that is the snapshot, if the pane is still the same.
     */
    twostate lemma HealthyReattachIsAnswered(s: AgentSession, id: string, since: seq<Event>)
      requires old(Valid()) && Valid() && old(s in store.sessions) && old(store.sessions) <= store.sessions
      requires history == old(history) + ([Inbound(s.number, Req(AttachTo(id, false)))] + since)
      requires old(s.established && !s.ended && id in store.panes)
      requires old(!store.panes[id].replayBroken && store.panes[id].holds == 0)
      requires HasCaughtUp() && !s.ended && s.lost == 0
      requires id in store.panes && store.panes[id].handle == old(store.panes[id].handle)
      ensures var h := old(store.panes[id].handle);
        && h < old(|store.handles|)
        && exists n: nat ::
             && n < |s.trace|
             && s.trace[n] == Response(old(s.requests), Attached(Serialized(Flatten(old(store.handles[h].emitted)))))
             && OnlyAnswer(s.trace, old(s.requests), n)
    {
      var asked, now := old(store.Value()), store.Value();
      var c := s.number;
      assert old(store.sessions[c] == s) && store.sessions[c] == s;
      assert asked.conns[c] == old(s.State()) && now.conns[c] == s.State();
      PanesHaveHandles(history, id);
      ReattachedHealthily(old(history), c, id, since);
    }
  }
}
