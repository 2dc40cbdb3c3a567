/** Which window receives what: every delivery goes to the window that owns the pane at that moment. */
module TransitRoutes {
  import opened Chunks
  import opened Transit

  // ---------------------------------------------------------------- one step

  /** What a step appends to the log reaches, where it reaches a window, the pane's own open window. */
  ghost predicate Addressed(m: Manager, log: seq<Entry>) {
    && m.log <= log
    && forall i {:trigger log[i]} :: |m.log| <= i < |log| && log[i].fate.Reached? ==>
         Target(m, log[i].pane) == Some(log[i].fate.window) && log[i].fate.window in m.open
  }

  lemma FlushAddresses(m: Manager, pane: string, fate: Fate)
    requires fate == FateAt(m, OwnerOf(m, pane)) || fate.ClosedWith?
    requires pane in m.owner || pane in m.transit || NothingWaits(m, pane) || fate.ClosedWith?
    ensures Addressed(m, Flush(m, pane, fate).log)
  {
    var m' := Flush(m, pane, fate);
    forall i | |m.log| <= i < |m'.log| ensures m'.log[i].pane == pane && m'.log[i].fate == fate {
      var rest := SnapshotEntry(m, pane, fate) + Deliveries(pane, BufferOf(m, pane), fate);
      assert m'.log == m.log + rest;
      assert m'.log[i] == rest[i - |m.log|];
    }
  }

  lemma {:induction false} DropAddresses(m: Manager, m0: Manager, panes: seq<string>, window: string)
    requires m0.log <= m.log
    requires forall i {:trigger m.log[i]} :: |m0.log| <= i < |m.log| ==> m.log[i].fate.ClosedWith?
    ensures Addressed(m0, DropPanes(m, panes, window).log)
    decreases |panes|
  {
    if panes != [] {
      var m1 := m.(owner := m.owner - {panes[0]});
      var fate := ClosedWith(window);
      var rest := SnapshotEntry(m1, panes[0], fate) + Deliveries(panes[0], BufferOf(m1, panes[0]), fate);
      var m2 := DropPane(m, panes[0], window);
      assert m2.log == m.log + rest;
      forall i | |m0.log| <= i < |m2.log| ensures m2.log[i].fate.ClosedWith? {
        if i >= |m.log| { assert m2.log[i] == rest[i - |m.log|]; }
      }
      DropAddresses(m2, m0, panes[1..], window);
    }
  }

  lemma RouteAddresses(m: Manager, pane: string, event: PaneEvent)
    ensures Addressed(m, RouteToPane(m, pane, event).log)
  {
    if pane in m.transit {
      var m1 := Buffered(m, pane, event);
      FlushAddresses(m1, pane, FateAt(m1, OwnerOf(m1, pane)));
    }
  }

  /** For every step: what it delivers goes to the pane's owner, or to the main window when it has none. */
  lemma StepAddresses(m: Manager, e: Event)
    requires m.snapshots.Keys <= m.transit.Keys && m.timers.Keys <= m.transit.Keys
    requires forall t :: t in m.scheduled ==> m.scheduled[t] in m.timers
    ensures Addressed(m, Step(m, e).log)
  {
    match e
    case Route(pane, event) => RouteAddresses(m, pane, event);
    case BeginSame(pane, sender) =>
      if pane in m.transit { FlushAddresses(m, pane, FateAt(m, OwnerOf(m, pane))); }
    case Readopted(pane) => FlushAddresses(m, pane, FateAt(m, OwnerOf(m, pane)));
    case TimerFires(timer) =>
      if timer in m.scheduled {
        FlushAddresses(m, m.scheduled[timer], FateAt(m, OwnerOf(m, m.scheduled[timer])));
      }
    case WindowCloses(window, order, main) =>
      DropAddresses(m.(open := m.open - {window}, main := main), m, OwnedBy(m, order, window), window);
    case _ =>
  }

  // ---------------------------------------------------------------- over runs

  lemma RunSnoc(events: seq<Event>, e: Event)
    ensures Run(Empty, events + [e]) == Step(Run(Empty, events), e)
  {
    RunConcat(Empty, events, [e]);
    assert [e][1..] == [];
  }

  lemma StepInRun(events: seq<Event>, e: Event)
    ensures Addressed(Run(Empty, events), Run(Empty, events + [e]).log)
  {
    EveryRun(events);
    RunSnoc(events, e);
    StepAddresses(Run(Empty, events), e);
  }

  /** Entry `i` of the run's log was written by event `k`, to the window its pane then belonged to. */
  ghost predicate SentRightly(events: seq<Event>, i: nat, k: nat) {
    && k < |events|
    && var m, log := Run(Empty, events[..k]), Run(Empty, events).log;
    && |m.log| <= i < |log| && log[i].fate.Reached?
    && Target(m, log[i].pane) == Some(log[i].fate.window) && log[i].fate.window in m.open
  }

  /**
   * Over every run, whatever a window received of a pane it received while it was open and owned the
   * pane, or was the main window and the pane had no owner.
   */
  lemma {:induction false} ReceivedByTheOwner(events: seq<Event>, i: nat)
    requires i < |Run(Empty, events).log| && Run(Empty, events).log[i].fate.Reached?
    ensures exists k: nat :: SentRightly(events, i, k)
    decreases |events|
  {
    if events != [] {
      var front, e := events[..|events| - 1], events[|events| - 1];
      assert events == front + [e];
      StepInRun(front, e);
      if i < |Run(Empty, front).log| {
        assert Run(Empty, events).log[i] == Run(Empty, front).log[i];
        ReceivedByTheOwner(front, i);
        var k: nat :| SentRightly(front, i, k);
        assert events[..k] == front[..k];
        assert SentRightly(events, i, k);
      } else {
        assert events[..|front|] == front;
        assert SentRightly(events, i, |front|);
      }
    }
  }

  // ---------------------------------------------------------------- what one window receives

  /** The events of one pane that one window received, in order. */
  function ReceivedBy(log: seq<Entry>, pane: string, window: string): seq<PaneEvent> {
    if log == [] then []
    else
      var last := log[|log| - 1];
      ReceivedBy(log[..|log| - 1], pane, window)
      + if last.Routed? && last.pane == pane && last.fate == Reached(window) then [last.event] else []
  }

  /** New entries of the pane that all reached `x` are received by `x` and by nobody else. */
  lemma {:induction false} AllToOne(log: seq<Entry>, more: seq<Entry>, pane: string, x: string, y: string)
    requires forall i :: 0 <= i < |more| && more[i].pane == pane ==> more[i].fate == Reached(x)
    ensures ReceivedBy(log + more, pane, y) ==
      ReceivedBy(log, pane, y) + if y == x then SealedOf(more, pane) else []
    decreases |more|
  {
    if more == [] {
      assert log + more == log;
    } else {
      var front, last := more[..|more| - 1], more[|more| - 1];
      AllToOne(log, front, pane, x, y);
      assert more == front + [last] && log + more == (log + front) + [last];
      ReceivedSnoc(log + front, last, pane, y);
      LogSnoc(front, last, pane);
      if y == x && last.Routed? && last.pane == pane {
        Regroup(ReceivedBy(log, pane, y), SealedOf(front, pane), [last.event]);
      }
    }
  }

  lemma ReceivedSnoc(log: seq<Entry>, last: Entry, pane: string, window: string)
    ensures ReceivedBy(log + [last], pane, window) ==
      ReceivedBy(log, pane, window)
      + if last.Routed? && last.pane == pane && last.fate == Reached(window) then [last.event] else []
  {
    assert (log + [last])[..|log|] == log;
  }

  /** The pane belongs to `x` in every state of the run. */
  predicate OwnedThroughout(m: Manager, events: seq<Event>, pane: string, x: string)
    decreases |events|
  {
    OwnerOf(m, pane) == Some(x) && (events == [] || OwnedThroughout(Step(m, events[0]), events[1..], pane, x))
  }

  lemma StepToOwner(m: Manager, e: Event, pane: string, x: string, y: string)
    requires ManagerOk(m) && OwnerOf(m, pane) == Some(x)
    requires NeverMissed(m.log, pane) && Safe(m, e, pane)
    ensures var m' := Step(m, e);
      && m.log <= m'.log
      && ReceivedBy(m'.log, pane, y) ==
           ReceivedBy(m.log, pane, y) + if y == x then SealedOf(m'.log[|m.log|..], pane) else []
  {
    var m' := Step(m, e);
    StepAddresses(m, e);
    StepMissesIff(m, e, pane);
    var more := m'.log[|m.log|..];
    assert m'.log == m.log + more;
    forall i | 0 <= i < |more| && more[i].pane == pane ensures more[i].fate == Reached(x) {
      assert more[i] == m'.log[|m.log| + i];
    }
    AllToOne(m.log, more, pane, x, y);
  }

  /** What the pane has received so far and still has to receive. */
  function InHand(m: Manager, pane: string, window: string): seq<PaneEvent> {
    ReceivedBy(m.log, pane, window) + BufferOf(m, pane)
  }

  /** What came in for a pane in one step is in its log or its buffer afterwards. */
  lemma StepBalances(m: Manager, e: Event, pane: string)
    requires ManagerOk(m) && m.log <= Step(m, e).log
    ensures var m' := Step(m, e);
      && m.routed <= m'.routed
      && SealedOf(m'.log[|m.log|..], pane) + BufferOf(m', pane) ==
           BufferOf(m, pane) + RoutedTo(m'.routed[|m.routed|..], pane)
  {
    var m' := Step(m, e);
    StepKeeps(m, e);
    StepRoutes(m, e);
    assert Conserved(m, pane) && Conserved(m', pane);
    var more, came := m'.log[|m.log|..], m'.routed[|m.routed|..];
    assert m'.log == m.log + more && m'.routed == m.routed + came;
    SealedConcat(m.log, more, pane);
    RoutedConcat(m.routed, came, pane);
    CancelPrefix(SealedOf(m.log, pane), SealedOf(more, pane) + BufferOf(m', pane),
                 BufferOf(m, pane) + RoutedTo(came, pane)) by {
      Regroup(SealedOf(m.log, pane), SealedOf(more, pane), BufferOf(m', pane));
      Regroup(SealedOf(m.log, pane), BufferOf(m, pane), RoutedTo(came, pane));
    }
  }

  lemma CancelPrefix<T>(a: seq<T>, b: seq<T>, c: seq<T>)
    requires a + b == a + c
    ensures b == c
  {
    assert b == (a + b)[|a|..] && c == (a + c)[|a|..];
  }

  lemma {:induction false} DropPanesRoute(m: Manager, panes: seq<string>, window: string)
    ensures DropPanes(m, panes, window).routed == m.routed
    decreases |panes|
  {
    if panes != [] { DropPanesRoute(DropPane(m, panes[0], window), panes[1..], window); }
  }

  lemma StepRoutes(m: Manager, e: Event)
    ensures Step(m, e).routed == m.routed + if e.Route? then [(e.pane, e.event)] else []
  {
    if e.WindowCloses? {
      DropPanesRoute(m.(open := m.open - {e.window}, main := e.main), OwnedBy(m, e.order, e.window), e.window);
    }
  }

  /**
   * As long as a window owns a pane and every step is safe, that window receives all that waited when it
   * became the owner and all that came in since, in order, but for what waits at the end; no other
   * window receives anything of the pane.
   */
  lemma {:induction false} OwnerReceivesAll(m: Manager, events: seq<Event>, pane: string, x: string, y: string)
    requires ManagerOk(m) && NeverMissed(m.log, pane)
    requires OwnedThroughout(m, events, pane, x) && SafeRun(m, events, pane)
    ensures var m' := Run(m, events);
      && m.routed <= m'.routed
      && (y == x ==> InHand(m', pane, x) == InHand(m, pane, x) + RoutedTo(m'.routed[|m.routed|..], pane))
      && (y != x ==> ReceivedBy(m'.log, pane, y) == ReceivedBy(m.log, pane, y))
    decreases |events|
  {
    if events == [] {
      assert m.routed[|m.routed|..] == [];
    } else {
      var m1, m' := Step(m, events[0]), Run(m, events);
      StepToOwner(m, events[0], pane, x, y);
      StepBalances(m, events[0], pane);
      StepKeeps(m, events[0]);
      StepMissesIff(m, events[0], pane);
      OwnerReceivesAll(m1, events[1..], pane, x, y);
      if y == x { OneMoreStep(m, m1, m', pane, x); }
    }
  }

  lemma OneMoreStep(m: Manager, m1: Manager, m': Manager, pane: string, x: string)
    requires m.routed <= m1.routed <= m'.routed && m.log <= m1.log
    requires ReceivedBy(m1.log, pane, x) == ReceivedBy(m.log, pane, x) + SealedOf(m1.log[|m.log|..], pane)
    requires SealedOf(m1.log[|m.log|..], pane) + BufferOf(m1, pane) ==
      BufferOf(m, pane) + RoutedTo(m1.routed[|m.routed|..], pane)
    requires InHand(m', pane, x) == InHand(m1, pane, x) + RoutedTo(m'.routed[|m1.routed|..], pane)
    ensures InHand(m', pane, x) == InHand(m, pane, x) + RoutedTo(m'.routed[|m.routed|..], pane)
  {
    var a, b := m1.routed[|m.routed|..], m'.routed[|m1.routed|..];
    assert m'.routed[|m.routed|..] == a + b;
    RoutedConcat(a, b, pane);
    Passes(ReceivedBy(m.log, pane, x), SealedOf(m1.log[|m.log|..], pane), BufferOf(m1, pane), BufferOf(m, pane),
           RoutedTo(a, pane), RoutedTo(b, pane));
  }

  lemma Passes<T>(received: seq<T>, settled: seq<T>, left: seq<T>, buffer: seq<T>, came: seq<T>, more: seq<T>)
    requires settled + left == buffer + came
    ensures ((received + settled) + left) + more == (received + buffer) + (came + more)
  {
    Regroup(received, settled, left);
    Regroup(received, buffer, came);
    Regroup(received + buffer, came, more);
  }

  /** The same, said of a run from the start: `before` made `x` the owner, `span` leaves it so. */
  lemma OwnerReceivesAllOfItsSpan(before: seq<Event>, span: seq<Event>, pane: string, x: string, y: string)
    requires SafeRun(Empty, before + span, pane) && OwnedThroughout(Run(Empty, before), span, pane, x)
    ensures var m, m' := Run(Empty, before), Run(Empty, before + span);
      && m.routed <= m'.routed
      && (y == x ==> InHand(m', pane, x) == InHand(m, pane, x) + RoutedTo(m'.routed[|m.routed|..], pane))
      && (y != x ==> ReceivedBy(m'.log, pane, y) == ReceivedBy(m.log, pane, y))
  {
    RunConcat(Empty, before, span);
    SafeConcat(Empty, before, span, pane);
    EveryRun(before);
    RunMissesIff(Empty, before, pane);
    OwnerReceivesAll(Run(Empty, before), span, pane, x, y);
  }

  lemma {:induction false} SafeConcat(m: Manager, a: seq<Event>, b: seq<Event>, pane: string)
    ensures SafeRun(m, a + b, pane) <==> SafeRun(m, a, pane) && SafeRun(Run(m, a), b, pane)
    decreases |a|
  {
    if a == [] {
      assert a + b == b;
    } else {
      SafeConcat(Step(m, a[0]), a[1..], b, pane);
      DropFirst(a, b);
    }
  }

  // ---------------------------------------------------------------- who owns what, read off the events

  /** The move that is on. */
  function Moving(events: seq<Event>): Option<Move> {
    if events == [] then None
    else
      match events[|events| - 1]
      case MoveStarts(move) => Some(move)
      case MoveEnds => None
      case _ => Moving(events[..|events| - 1])
  }

  predicate IsOpen(events: seq<Event>, window: string) {
    if events == [] then false
    else
      match events[|events| - 1]
      case WindowOpens(other, _) => other == window || IsOpen(events[..|events| - 1], window)
      case WindowCloses(other, _, _) => other != window && IsOpen(events[..|events| - 1], window)
      case _ => IsOpen(events[..|events| - 1], window)
  }

  function MainWindow(events: seq<Event>): Option<string> {
    if events == [] then None
    else
      match events[|events| - 1]
      case WindowOpens(_, main) => main
      case WindowCloses(_, _, main) => main
      case _ => MainWindow(events[..|events| - 1])
  }

  /** The last claim of the pane or move that took it along, unless its window has closed since. */
  function LatestOwner(events: seq<Event>, pane: string): Option<string> {
    if events == [] then None
    else
      var front := events[..|events| - 1];
      match events[|events| - 1]
      case Claim(other, sender) => if other == pane && sender.Some? then sender else LatestOwner(front, pane)
      case Snapshot(other, _) =>
        if other == pane && Moving(front).Some? then Some(Moving(front).value.destination)
        else LatestOwner(front, pane)
      case WindowCloses(window, order, _) =>
        if pane in order && LatestOwner(front, pane) == Some(window) then None else LatestOwner(front, pane)
      case _ => LatestOwner(front, pane)
  }

  lemma {:induction false} DropPanesLeave(m: Manager, panes: seq<string>, window: string)
    ensures var m' := DropPanes(m, panes, window); m'.open == m.open && m'.inflight == m.inflight && m'.main == m.main
    decreases |panes|
  {
    if panes != [] { DropPanesLeave(DropPane(m, panes[0], window), panes[1..], window); }
  }

  /** What closing a window leaves: its own panes are neither owned nor buffered, and the rest is as it was. */
  lemma CloseLeaves(m: Manager, window: string, order: seq<string>, main: Option<string>, pane: string)
    ensures var m' := Step(m, WindowCloses(window, order, main));
      && OwnerOf(m', pane) == (if pane in order && OwnerOf(m, pane) == Some(window) then None else OwnerOf(m, pane))
      && (pane in m'.transit <==> pane in m.transit && !(pane in order && OwnerOf(m, pane) == Some(window)))
      && m'.open == m.open - {window} && m'.main == main && m'.inflight == m.inflight
  {
    var m1, panes := m.(open := m.open - {window}, main := main), OwnedBy(m, order, window);
    DropPanesOwners(m1, panes, window);
    DropPanesLeave(m1, panes, window);
  }

  /** Only buffers, snapshots, timers and logs changed, and no other pane's buffer began or ended. */
  ghost predicate Leaves(m: Manager, m': Manager, pane: string) {
    && m'.owner == m.owner && m'.open == m.open && m'.main == m.main && m'.inflight == m.inflight
    && forall other :: other != pane ==> (other in m'.transit <==> other in m.transit)
  }

  lemma ReplayLeaves(m: Manager, pane: string)
    ensures Leaves(m, ReplayInto(m, pane), pane) && pane !in ReplayInto(m, pane).transit
  {
  }

  lemma RouteLeaves(m: Manager, pane: string, event: PaneEvent)
    ensures var m' := RouteToPane(m, pane, event);
      && Leaves(m, m', pane)
      && (pane in m'.transit <==> pane in m.transit && |m.transit[pane]| < TRANSIT_BUFFER_MAX)
  {
    if pane in m.transit {
      ReplayLeaves(Buffered(m, pane, event), pane);
    }
  }

  lemma BeginLeaves(m: Manager, pane: string, sender: Option<string>)
    ensures var m' := BeginSameWindowTransit(m, pane, sender);
      && Leaves(m, m', pane)
      && (pane in m'.transit <==> pane in m.transit || (sender.Some? && OwnerOf(m, pane) == sender))
  {
    if pane in m.transit && OwnerOf(m, pane) == sender { ReplayLeaves(m, pane); }
  }

  lemma SnapshotLeaves(m: Manager, pane: string, data: string)
    ensures var m' := OnSnapshot(m, pane, data);
      && Leaves(m.(owner := m'.owner), m', pane)
      && (pane in m'.transit <==> pane in m.transit || m.inflight.Some?)
      && m'.owner == if m.inflight.Some? then m.owner[pane := m.inflight.value.destination] else m.owner
  {
  }

  lemma StepOwners(m: Manager, e: Event, pane: string)
    ensures OwnerOf(Step(m, e), pane) ==
      match e
      case Claim(other, sender) => if other == pane && sender.Some? then sender else OwnerOf(m, pane)
      case Snapshot(other, _) =>
        if other == pane && m.inflight.Some? then Some(m.inflight.value.destination) else OwnerOf(m, pane)
      case WindowCloses(window, order, _) =>
        if pane in order && OwnerOf(m, pane) == Some(window) then None else OwnerOf(m, pane)
      case _ => OwnerOf(m, pane)
  {
    match e
    case Route(other, event) => RouteLeaves(m, other, event);
    case BeginSame(other, sender) => BeginLeaves(m, other, sender);
    case Readopted(other) => ReplayLeaves(m, other);
    case TimerFires(timer) => if timer in m.scheduled { ReplayLeaves(m, m.scheduled[timer]); }
    case Snapshot(other, data) => SnapshotLeaves(m, other, data);
    case WindowCloses(window, order, main) => CloseLeaves(m, window, order, main, pane);
    case _ =>
  }

  lemma StepWindows(m: Manager, e: Event)
    ensures var m' := Step(m, e);
      && m'.open == (match e case WindowOpens(w, _) => m.open + {w} case WindowCloses(w, _, _) => m.open - {w}
                     case _ => m.open)
      && m'.main == (match e case WindowOpens(_, main) => main case WindowCloses(_, _, main) => main case _ => m.main)
      && m'.inflight == (match e case MoveStarts(move) => Some(move) case MoveEnds => None case _ => m.inflight)
  {
    match e
    case Route(other, event) => RouteLeaves(m, other, event);
    case BeginSame(other, sender) => BeginLeaves(m, other, sender);
    case Readopted(other) => ReplayLeaves(m, other);
    case TimerFires(timer) => if timer in m.scheduled { ReplayLeaves(m, m.scheduled[timer]); }
    case Snapshot(other, data) => SnapshotLeaves(m, other, data);
    case WindowCloses(window, order, main) => CloseLeaves(m, window, order, main, "");
    case _ =>
  }

  /** After any run the owner of a pane, the open windows and the move are those the events tell. */
  lemma {:induction false} OwnerIsLatest(events: seq<Event>, pane: string, window: string)
    ensures var m := Run(Empty, events);
      && OwnerOf(m, pane) == LatestOwner(events, pane)
      && (window in m.open <==> IsOpen(events, window))
      && m.inflight == Moving(events) && m.main == MainWindow(events)
    decreases |events|
  {
    if events != [] {
      var front, e := events[..|events| - 1], events[|events| - 1];
      assert events == front + [e];
      RunSnoc(front, e);
      OwnerIsLatest(front, pane, window);
      StepOwners(Run(Empty, front), e, pane);
      StepWindows(Run(Empty, front), e);
    }
  }

  // ---------------------------------------------------------------- when a pane is buffered

  /** The owning window announces a remount, or a snapshot of the move that is on arrives. */
  predicate Starts(m: Manager, e: Event, pane: string) {
    match e
    case BeginSame(p, sender) => p == pane && sender.Some? && OwnerOf(m, pane) == sender
    case Snapshot(p, data) => p == pane && m.inflight.Some?
    case _ => false
  }

  /** The pane is shown again, its timer fires, its buffer overflows, or its window closes. */
  predicate Stops(m: Manager, e: Event, pane: string) {
    match e
    case Readopted(p) => p == pane
    case TimerFires(timer) => timer in m.scheduled && m.scheduled[timer] == pane
    case Route(p, event) => p == pane && pane in m.transit && |m.transit[pane]| >= TRANSIT_BUFFER_MAX
    case WindowCloses(window, order, main) => pane in order && OwnerOf(m, pane) == Some(window)
    case _ => false
  }

  /** A pane is buffered after a step exactly when the step starts it, or it was and the step does not stop it. */
  lemma BufferedIff(m: Manager, e: Event, pane: string)
    ensures pane in Step(m, e).transit <==> Starts(m, e, pane) || (pane in m.transit && !Stops(m, e, pane))
  {
    match e
    case Route(other, event) => RouteLeaves(m, other, event);
    case BeginSame(other, sender) => BeginLeaves(m, other, sender);
    case Readopted(other) => ReplayLeaves(m, other);
    case TimerFires(timer) => if timer in m.scheduled { ReplayLeaves(m, m.scheduled[timer]); }
    case Snapshot(other, data) => SnapshotLeaves(m, other, data);
    case WindowCloses(window, order, main) => CloseLeaves(m, window, order, main, pane);
    case _ =>
  }
}
