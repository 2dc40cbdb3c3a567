/** The daemon's idle lifecycle: a timer that is armed exactly while there is nothing to serve. */
module DaemonLifecycle {
  import opened Chunks

  datatype Reason = Idle | Signal

  /**
   * `timer` is the time at which the armed timer becomes due. `now`, `busyUntil` and `fired` are
   * logs: the clock, the last instant at which something was being served, and the shutdowns.
   */
  datatype Life = Life(timeout: nat, established: nat, panes: nat, timer: Option<nat>, shutdown: bool,
                       started: bool, now: nat, busyUntil: nat, fired: seq<Reason>)

  function Created(timeout: nat): Life {
    Life(timeout, 0, 0, None, false, false, 0, 0, [])
  }

  predicate Empty(l: Life) {
    l.established == 0 && l.panes == 0
  }

  function Cancel(l: Life): Life {
    l.(timer := None)
  }

  function FireShutdown(l: Life, reason: Reason): Life {
    if l.shutdown then l else Cancel(l.(shutdown := true)).(fired := l.fired + [reason])
  }

  function Arm(l: Life): Life {
    if l.shutdown then l else Cancel(l).(timer := Some(l.now + l.timeout))
  }

  function MaybeArm(l: Life): Life {
    if Empty(l) then Arm(l) else l
  }

  /** `Elapse` lets time pass; `Due` runs the timer callback, on time or late. */
  datatype Event =
    | Start
    | ConnectionEstablished
    | ConnectionEnded
    | PaneSpawned
    | PaneExited
    | SigTerm
    | Dispose
    | Elapse(dt: nat)
    | Due

  function Step(l: Life, e: Event): Life {
    match e
    case Start => MaybeArm(l.(started := true))
    case ConnectionEstablished => Busy(Cancel(l.(established := l.established + 1)))
    case ConnectionEnded => MaybeArm(l.(established := if l.established > 0 then l.established - 1 else 0))
    case PaneSpawned => Busy(Cancel(l.(panes := l.panes + 1)))
    case PaneExited => MaybeArm(l.(panes := if l.panes > 0 then l.panes - 1 else 0))
    case SigTerm => FireShutdown(l, Signal)
    case Dispose => Cancel(l.(shutdown := true))
    case Elapse(dt) => var l1 := l.(now := l.now + dt); if Empty(l) then l1 else Busy(l1)
    case Due => if l.timer.Some? && l.timer.value <= l.now then FireShutdown(l.(timer := None), Idle) else l
  }

  function Busy(l: Life): Life {
    l.(busyUntil := l.now)
  }

  function Run(l: Life, events: seq<Event>): Life
    decreases |events|
  {
    if events == [] then l else Run(Step(l, events[0]), events[1..])
  }

  ghost predicate LifeOk(l: Life) {
    && (l.timer.Some? ==> Empty(l) && !l.shutdown && l.busyUntil + l.timeout <= l.timer.value <= l.now + l.timeout)
    && (l.started && Empty(l) && !l.shutdown ==> l.timer.Some?)
    && l.busyUntil <= l.now
    && (!Empty(l) ==> l.busyUntil == l.now)
    && |l.fired| <= (if l.shutdown then 1 else 0)
  }

  lemma StepKeeps(l: Life, e: Event)
    requires LifeOk(l)
    ensures LifeOk(Step(l, e))
    ensures var l' := Step(l, e);
      l'.timeout == l.timeout && l'.now >= l.now && l'.busyUntil >= l.busyUntil
        && (!Empty(l) ==> l'.busyUntil == l'.now)
  {
  }

  lemma {:induction false} RunKeeps(l: Life, events: seq<Event>)
    requires LifeOk(l)
    ensures LifeOk(Run(l, events))
    ensures Run(l, events).timeout == l.timeout && Run(l, events).now >= l.now
    ensures Run(l, events).busyUntil >= l.busyUntil
    decreases |events|
  {
    if events != [] {
      StepKeeps(l, events[0]);
      RunKeeps(Step(l, events[0]), events[1..]);
    }
  }

  /** From `start` to shutdown the timer is armed exactly when nothing is served. */
  lemma ArmedExactlyWhenEmpty(timeout: nat, events: seq<Event>)
    ensures var l := Run(Created(timeout), events);
      l.started && !l.shutdown ==> (l.timer.Some? <==> Empty(l))
  {
    RunKeeps(Created(timeout), events);
  }

  lemma ShutdownAtMostOnce(timeout: nat, events: seq<Event>)
    ensures |Run(Created(timeout), events).fired| <= 1
  {
    RunKeeps(Created(timeout), events);
  }

  lemma {:induction false} RunConcat(l: Life, a: seq<Event>, b: seq<Event>)
    ensures Run(l, a + b) == Run(Run(l, a), b)
    decreases |a|
  {
    if a == [] {
      assert a + b == b;
    } else {
      RunConcat(Step(l, a[0]), a[1..], b);
      DropFirst(a, b);
    }
  }

  /**
   * An idle shutdown at time T means that the daemon served nothing during the whole timeout before
   * T: whenever it served something, the event that followed had passed at least a timeout before T.
   */
  lemma IdleMeansIdle(timeout: nat, events: seq<Event>, k: nat)
    requires k < |events| && !Empty(Run(Created(timeout), events[..k]))
    requires Run(Created(timeout), events).fired == [] && Run(Created(timeout), events + [Due]).fired == [Idle]
    ensures Run(Created(timeout), events[..k + 1]).now + timeout <= Run(Created(timeout), events + [Due]).now
  {
    var l := Created(timeout);
    var done := Run(l, events);
    RunConcat(l, events, [Due]);
    RunKeeps(l, events);
    BusyIsRemembered(l, events, k);
    assert Run(l, events + [Due]) == Step(done, Due);
  }

  lemma RunSnoc(l: Life, events: seq<Event>, e: Event)
    ensures Run(l, events + [e]) == Step(Run(l, events), e)
  {
    RunConcat(l, events, [e]);
    assert [e][1..] == [];
  }

  /** The log of the last busy instant covers the event after every busy state of the run. */
  lemma BusyIsRemembered(l: Life, events: seq<Event>, k: nat)
    requires LifeOk(l) && k < |events| && !Empty(Run(l, events[..k]))
    ensures Run(l, events[..k + 1]).now <= Run(l, events).busyUntil
  {
    var before, e := Run(l, events[..k]), events[k];
    RunKeeps(l, events[..k]);
    StepKeeps(before, e);
    assert events[..k + 1] == events[..k] + [e];
    RunSnoc(l, events[..k], e);
    assert events == events[..k + 1] + events[k + 1..];
    RunConcat(l, events[..k + 1], events[k + 1..]);
    RunKeeps(Step(before, e), events[k + 1..]);
  }

  // ---------------------------------------------------------------- the shutdown does come

  /** The events that start the timer over when they leave nothing to serve. */
  predicate Restarts(e: Event) {
    e.Start? || e.ConnectionEnded? || e.PaneExited?
  }

  /**
   * When the armed timer is due: a timeout after the last event that started it over, whether or not it
   * was armed before; time that passes and callbacks that come early do not move it.
   */
  lemma DeadlineMoves(l: Life, e: Event)
    requires LifeOk(l) && !l.shutdown && Step(l, e).timer.Some?
    ensures Step(l, e).timer == if Restarts(e) then Some(l.now + l.timeout) else l.timer
  {
  }

  /** The timer callback shuts down exactly when the armed deadline has been reached, and is ignored otherwise. */
  lemma DueShutsDownIff(timeout: nat, events: seq<Event>)
    ensures var l := Run(Created(timeout), events); var l' := Step(l, Due);
      && (l'.shutdown && !l.shutdown <==> l.timer.Some? && l.timer.value <= l.now)
      && (if l'.shutdown && !l.shutdown then l'.fired == [Idle] && l'.timer.None? else l' == l)
  {
    RunKeeps(Created(timeout), events);
  }

  /** Started, empty and not shut down, a daemon that is left alone for its timeout shuts down, once, as idle. */
  lemma EmptyDaemonIdlesOut(timeout: nat, events: seq<Event>)
    requires var l := Run(Created(timeout), events); l.started && !l.shutdown && Empty(l)
    ensures var l := Run(Created(timeout), events + [Elapse(timeout), Due]); l.shutdown && l.fired == [Idle]
  {
    RunKeeps(Created(timeout), events);
    var l := Run(Created(timeout), events);
    RunConcat(Created(timeout), events, [Elapse(timeout), Due]);
    RunTwo(l, Elapse(timeout), Due);
  }

  /** Left alone after the event that emptied it, the daemon shuts down after exactly its timeout. */
  lemma IdlesAfterExactlyTheTimeout(timeout: nat, events: seq<Event>, e: Event, dt: nat)
    requires !Empty(Run(Created(timeout), events))
    requires var l := Run(Created(timeout), events + [e]); l.started && !l.shutdown && Empty(l)
    ensures Run(Created(timeout), events + [e] + [Elapse(dt), Due]).shutdown <==> dt >= timeout
  {
    var c := Created(timeout);
    RunKeeps(c, events);
    RunConcat(c, events, [e]);
    var l := Run(c, events + [e]);
    assert l == Step(Run(c, events), e);
    StepKeeps(Run(c, events), e);
    RunConcat(c, events + [e], [Elapse(dt), Due]);
    RunTwo(l, Elapse(dt), Due);
  }

  lemma RunTwo(l: Life, e: Event, f: Event)
    ensures Run(l, [e, f]) == Step(Step(l, e), f)
  {
    assert [e, f][1..] == [f] && [f][1..] == [];
    assert Run(Step(l, e), [f]) == Step(Step(l, e), f);
  }

  /** The signal shuts a running daemon down at once, whatever it serves, and does nothing to one that is down. */
  lemma SignalShutsDown(timeout: nat, events: seq<Event>)
    ensures var l := Run(Created(timeout), events); var l' := Run(Created(timeout), events + [SigTerm]);
      if l.shutdown then l' == l else l'.shutdown && l'.fired == [Signal] && l'.timer.None?
  {
    RunKeeps(Created(timeout), events);
    RunConcat(Created(timeout), events, [SigTerm]);
    assert [SigTerm][1..] == [];
  }

  /** Shut down or disposed of, the daemon stays down: no timer is armed and no shutdown fires any more. */
  lemma {:induction false} DownIsFinal(l: Life, events: seq<Event>)
    requires LifeOk(l) && l.shutdown
    ensures var l' := Run(l, events); l'.shutdown && l'.timer.None? && l'.fired == l.fired
    decreases |events|
  {
    if events != [] {
      StepKeeps(l, events[0]);
      DownIsFinal(Step(l, events[0]), events[1..]);
    }
  }

  /** The lifecycle object. */
  class Lifecycle {
    const idleTimeoutMs: nat
    var establishedCount: nat
    var paneCount: nat
    var timer: Option<nat>
    var shutdown: bool
    var started: bool
    var now: nat
    var busyUntil: nat
    var fired: seq<Reason>

    ghost function State(): Life
      reads this
    {
      Life(idleTimeoutMs, establishedCount, paneCount, timer, shutdown, started, now, busyUntil, fired)
    }

    constructor (idleTimeoutMs: nat)
      ensures State() == Created(idleTimeoutMs)
    {
      this.idleTimeoutMs := idleTimeoutMs;
      establishedCount, paneCount, timer, shutdown, started := 0, 0, None, false, false;
      now, busyUntil, fired := 0, 0, [];
    }

    method ArmIfEmpty()
      modifies `timer
      ensures State() == MaybeArm(old(State()))
    {
      if establishedCount == 0 && paneCount == 0 {
        if shutdown { return; }
        timer := Some(now + idleTimeoutMs);
      }
    }

    method Start()
      modifies `timer, `started
      ensures State() == Step(old(State()), Event.Start)
    {
      started := true;
      ArmIfEmpty();
    }

    method OnConnectionEstablished()
      modifies `establishedCount, `timer, `busyUntil
      ensures State() == Step(old(State()), ConnectionEstablished)
    {
      establishedCount := establishedCount + 1;
      timer := None;
      busyUntil := now;
    }

    method OnConnectionEnded()
      modifies `establishedCount, `timer
      ensures State() == Step(old(State()), ConnectionEnded)
    {
      if establishedCount > 0 { establishedCount := establishedCount - 1; }
      ArmIfEmpty();
    }

    method OnPaneSpawned()
      modifies `paneCount, `timer, `busyUntil
      ensures State() == Step(old(State()), PaneSpawned)
    {
      paneCount := paneCount + 1;
      timer := None;
      busyUntil := now;
    }

    method OnPaneExited()
      modifies `paneCount, `timer
      ensures State() == Step(old(State()), PaneExited)
    {
      if paneCount > 0 { paneCount := paneCount - 1; }
      ArmIfEmpty();
    }

    /** The one shutdown path, for the timer and for the signal. */
    method Fire(reason: Reason)
      modifies `timer, `shutdown, `fired
      ensures State() == FireShutdown(old(State()), reason)
    {
      if shutdown { return; }
      shutdown := true;
      timer := None;
      fired := fired + [reason];
    }

    method OnTimer()
      modifies `timer, `shutdown, `fired
      ensures State() == Step(old(State()), Due)
    {
      if timer.Some? && timer.value <= now {
        timer := None;
        Fire(Idle);
      }
    }

    method Retire()
      modifies `timer, `shutdown
      ensures State() == Step(old(State()), Dispose)
    {
      shutdown := true;
      timer := None;
    }
  }
}
