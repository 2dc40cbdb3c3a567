/**
 * The window handoff buffer: while a pane moves between windows its events are buffered, and
 * replayed in order once the destination is ready, after a timeout, or when the buffer is full.
 */
module Transit {
  import opened Chunks

  const TRANSIT_BUFFER_MAX: nat := 1024

  /** A pane-scoped push event. */
  datatype PaneEvent = PaneEvent(channel: string, payload: string)

  /** What became of an attempt to deliver: which open window got it, none, gone with its window, or,
      for a snapshot, replaced by a newer one before it was sent. */
  datatype Fate = Reached(window: string) | NoWindow | ClosedWith(window: string) | Superseded

  /** One entry of the delivery log: a routed event, or a snapshot captured at the start of a move, with
      how many events had been routed when its pane's buffering began and when it was sent. */
  datatype Entry =
    | Routed(pane: string, event: PaneEvent, fate: Fate)
    | Captured(pane: string, data: string, began: nat, ended: nat, fate: Fate)

  datatype Move = Move(workspace: string, destination: string)

  /**
   * `timers` are the manager's flush timers by pane, `scheduled` the timers the host will really
   * fire. `routed` and `log` record what came in and what went out, `since` how much had come in when
   * a pane's buffering began.
   */
  datatype Manager = Manager(open: set<string>, main: Option<string>, owner: map<string, string>,
                             transit: map<string, seq<PaneEvent>>, timers: map<string, nat>,
                             scheduled: map<nat, string>, nextTimer: nat, snapshots: map<string, string>,
                             inflight: Option<Move>, routed: seq<(string, PaneEvent)>, log: seq<Entry>,
                             since: map<string, nat>)

  const Empty := Manager({}, None, map[], map[], map[], map[], 0, map[], None, [], [], map[])

  function FateAt(m: Manager, window: Option<string>): Fate {
    if window.Some? && window.value in m.open then Reached(window.value) else NoWindow
  }

  function OwnerOf(m: Manager, pane: string): Option<string> {
    if pane in m.owner then Some(m.owner[pane]) else None
  }

  /** Cancel the pane's flush timer, if it has one. */
  function EndTransit(m: Manager, pane: string): Manager {
    if pane in m.timers then m.(timers := m.timers - {pane}, scheduled := m.scheduled - {m.timers[pane]}) else m
  }

  function ArmTimer(m: Manager, pane: string): Manager {
    m.(timers := m.timers[pane := m.nextTimer], scheduled := m.scheduled[m.nextTimer := pane],
       nextTimer := m.nextTimer + 1)
  }

  function Deliveries(pane: string, events: seq<PaneEvent>, fate: Fate): (r: seq<Entry>)
    ensures |r| == |events|
  {
    seq(|events|, i requires 0 <= i < |events| => Routed(pane, events[i], fate))
  }

  function BufferOf(m: Manager, pane: string): seq<PaneEvent> {
    if pane in m.transit then m.transit[pane] else []
  }

  function Began(m: Manager, pane: string): nat {
    if pane in m.since then m.since[pane] else |m.routed|
  }

  function SnapshotEntry(m: Manager, pane: string, fate: Fate): seq<Entry> {
    if pane in m.snapshots then [Captured(pane, m.snapshots[pane], Began(m, pane), |m.routed|, fate)] else []
  }

  /** Stop buffering; the captured snapshot goes first and the buffered events right behind it. */
  function Flush(m: Manager, pane: string, fate: Fate): Manager {
    EndTransit(m, pane).(
      snapshots := m.snapshots - {pane}, transit := m.transit - {pane}, since := m.since - {pane},
      log := m.log + SnapshotEntry(m, pane, fate) + Deliveries(pane, BufferOf(m, pane), fate))
  }

  /** Everything that waited goes to the window that owns the pane now. */
  function ReplayInto(m: Manager, pane: string): Manager {
    Flush(m, pane, FateAt(m, OwnerOf(m, pane)))
  }

  function StartBuffer(m: Manager, pane: string): Manager {
    m.(transit := m.transit[pane := []], since := m.since[pane := |m.routed|])
  }

  function RouteToPane(m: Manager, pane: string, event: PaneEvent): Manager {
    var m1 := m.(routed := m.routed + [(pane, event)]);
    if pane in m.transit then
      var m2 := m1.(transit := m.transit[pane := m.transit[pane] + [event]]);
      if |m2.transit[pane]| > TRANSIT_BUFFER_MAX then ReplayInto(m2, pane) else m2
    else
      var window := if pane in m.owner then Some(m.owner[pane]) else m.main;
      m1.(log := m1.log + [Routed(pane, event, FateAt(m1, window))])
  }

  /** Arm the buffer for an unmount and remount inside one window; only the owning window may. */
  function BeginSameWindowTransit(m: Manager, pane: string, sender: Option<string>): Manager {
    if sender.None? || OwnerOf(m, pane) != sender then m
    else
      var m1 := if pane in m.transit then ReplayInto(m, pane) else m;
      ArmTimer(EndTransit(StartBuffer(m1, pane), pane), pane)
  }

  /** A snapshot reply of the move in flight: keep it, re-own the pane, buffer from here on. */
  function OnSnapshot(m: Manager, pane: string, data: string): Manager {
    if m.inflight.None? then m
    else
      var m1 := m.(snapshots := m.snapshots[pane := data], owner := m.owner[pane := m.inflight.value.destination],
                   log := m.log + SnapshotEntry(m, pane, Superseded));
      if pane in m.transit then m1 else ArmTimer(StartBuffer(m1, pane), pane)
  }

  /** A pane that dies with its window: ownership, timer, buffer and snapshot go. */
  function DropPane(m: Manager, pane: string, window: string): Manager {
    Flush(m.(owner := m.owner - {pane}), pane, ClosedWith(window))
  }

  function DropPanes(m: Manager, panes: seq<string>, window: string): Manager
    decreases |panes|
  {
    if panes == [] then m else DropPanes(DropPane(m, panes[0], window), panes[1..], window)
  }

  /** The panes of `order` that the window owns. */
  function OwnedBy(m: Manager, order: seq<string>, window: string): (r: seq<string>)
    ensures forall p :: p in r <==> p in order && OwnerOf(m, p) == Some(window)
    decreases |order|
  {
    if order == [] then []
    else (if OwnerOf(m, order[0]) == Some(window) then [order[0]] else []) + OwnedBy(m, order[1..], window)
  }

  /** `order` is the iteration order of the ownership map, `main` the main window afterwards. */
  datatype Event =
    | Route(pane: string, event: PaneEvent)
    | BeginSame(pane: string, sender: Option<string>)
    | Readopted(pane: string)
    | TimerFires(timer: nat)
    | Snapshot(pane: string, data: string)
    | MoveStarts(move: Move)
    | MoveEnds
    | Claim(pane: string, sender: Option<string>)
    | WindowOpens(window: string, main: Option<string>)
    | WindowCloses(window: string, order: seq<string>, main: Option<string>)

  function Step(m: Manager, e: Event): Manager {
    match e
    case Route(pane, event) => RouteToPane(m, pane, event)
    case BeginSame(pane, sender) => BeginSameWindowTransit(m, pane, sender)
    case Readopted(pane) => ReplayInto(m, pane)
    case TimerFires(timer) => if timer in m.scheduled then ReplayInto(m, m.scheduled[timer]) else m
    case Snapshot(pane, data) => OnSnapshot(m, pane, data)
    case MoveStarts(move) => m.(inflight := Some(move))
    case MoveEnds => m.(inflight := None)
    case Claim(pane, sender) => if sender.Some? then m.(owner := m.owner[pane := sender.value]) else m
    case WindowOpens(window, main) => m.(open := m.open + {window}, main := main)
    case WindowCloses(window, order, main) =>
      DropPanes(m.(open := m.open - {window}, main := main), OwnedBy(m, order, window), window)
  }

  function Run(m: Manager, events: seq<Event>): Manager
    decreases |events|
  {
    if events == [] then m else Run(Step(m, events[0]), events[1..])
  }

  // ---------------------------------------------------------------- what came in, what is settled

  /** The events of one pane, as they were routed. */
  function RoutedTo(routed: seq<(string, PaneEvent)>, pane: string): seq<PaneEvent> {
    if routed == [] then []
    else
      var last := routed[|routed| - 1];
      RoutedTo(routed[..|routed| - 1], pane) + if last.0 == pane then [last.1] else []
  }

  /** The routed events of one pane whose fate is sealed, in the order in which it was sealed. */
  function SealedOf(log: seq<Entry>, pane: string): seq<PaneEvent> {
    if log == [] then []
    else
      var last := log[|log| - 1];
      SealedOf(log[..|log| - 1], pane) + if last.Routed? && last.pane == pane then [last.event] else []
  }

  /** The snapshots of one pane whose fate is sealed. */
  function CapturedOf(log: seq<Entry>, pane: string): seq<string> {
    if log == [] then []
    else
      var last := log[|log| - 1];
      CapturedOf(log[..|log| - 1], pane) + if last.Captured? && last.pane == pane then [last.data] else []
  }

  lemma {:induction false} RoutedConcat(a: seq<(string, PaneEvent)>, b: seq<(string, PaneEvent)>, pane: string)
    ensures RoutedTo(a + b, pane) == RoutedTo(a, pane) + RoutedTo(b, pane)
    decreases |b|
  {
    if b == [] {
      assert a + b == a;
    } else {
      RoutedConcat(a, b[..|b| - 1], pane);
      assert (a + b)[..|a + b| - 1] == a + b[..|b| - 1];
    }
  }

  lemma LogSnoc(log: seq<Entry>, entry: Entry, pane: string)
    ensures SealedOf(log + [entry], pane) ==
      SealedOf(log, pane) + if entry.Routed? && entry.pane == pane then [entry.event] else []
    ensures CapturedOf(log + [entry], pane) ==
      CapturedOf(log, pane) + if entry.Captured? && entry.pane == pane then [entry.data] else []
  {
    assert (log + [entry])[..|log|] == log;
  }

  lemma {:induction false} SealedConcat(a: seq<Entry>, b: seq<Entry>, pane: string)
    ensures SealedOf(a + b, pane) == SealedOf(a, pane) + SealedOf(b, pane)
    decreases |b|
  {
    if b == [] {
      assert a + b == a;
    } else {
      SealedConcat(a, b[..|b| - 1], pane);
      SnocAppend(a, b[..|b| - 1], b[|b| - 1]);
      assert b == b[..|b| - 1] + [b[|b| - 1]];
    }
  }

  lemma {:induction false} CapturedConcat(a: seq<Entry>, b: seq<Entry>, pane: string)
    ensures CapturedOf(a + b, pane) == CapturedOf(a, pane) + CapturedOf(b, pane)
    decreases |b|
  {
    if b == [] {
      assert a + b == a;
    } else {
      CapturedConcat(a, b[..|b| - 1], pane);
      SnocAppend(a, b[..|b| - 1], b[|b| - 1]);
      assert b == b[..|b| - 1] + [b[|b| - 1]];
    }
  }

  lemma SnocAppend<T>(a: seq<T>, front: seq<T>, last: T)
    ensures a + (front + [last]) == (a + front) + [last]
    ensures ((a + front) + [last])[..|a + front|] == a + front
  {
  }

  lemma RoutedSnoc(routed: seq<(string, PaneEvent)>, last: (string, PaneEvent), pane: string)
    ensures RoutedTo(routed + [last], pane) == RoutedTo(routed, pane) + if last.0 == pane then [last.1] else []
  {
    assert (routed + [last])[..|routed|] == routed;
  }

  lemma DeliveriesSnoc(pane: string, front: seq<PaneEvent>, last: PaneEvent, fate: Fate)
    ensures Deliveries(pane, front + [last], fate) == Deliveries(pane, front, fate) + [Routed(pane, last, fate)]
  {
  }

  lemma {:induction false} DeliveriesSeal(pane: string, events: seq<PaneEvent>, fate: Fate, other: string)
    ensures SealedOf(Deliveries(pane, events, fate), other) == if other == pane then events else []
    ensures CapturedOf(Deliveries(pane, events, fate), other) == []
    decreases |events|
  {
    if events != [] {
      var front, last := events[..|events| - 1], events[|events| - 1];
      DeliveriesSeal(pane, front, fate, other);
      DeliveriesSnoc(pane, front, last, fate);
      LogSnoc(Deliveries(pane, front, fate), Routed(pane, last, fate), other);
      assert events == front + [last];
    }
  }

  /** The snapshot that waits for its pane to be shown again. */
  function Waiting(m: Manager, pane: string): seq<string> {
    if pane in m.snapshots then [m.snapshots[pane]] else []
  }

  /** A flush seals what waited, events and snapshot, of its own pane and of no other. */
  lemma FlushSeals(m: Manager, pane: string, fate: Fate, other: string)
    ensures SealedOf(Flush(m, pane, fate).log, other) ==
      SealedOf(m.log, other) + if other == pane then BufferOf(m, pane) else []
    ensures CapturedOf(Flush(m, pane, fate).log, other) ==
      CapturedOf(m.log, other) + if other == pane then Waiting(m, pane) else []
  {
    var front, entries := m.log + SnapshotEntry(m, pane, fate), Deliveries(pane, BufferOf(m, pane), fate);
    SealedConcat(front, entries, other);
    CapturedConcat(front, entries, other);
    DeliveriesSeal(pane, BufferOf(m, pane), fate, other);
    SnapshotSeals(m, pane, fate, other);
  }

  lemma SnapshotSeals(m: Manager, pane: string, fate: Fate, other: string)
    ensures SealedOf(m.log + SnapshotEntry(m, pane, fate), other) == SealedOf(m.log, other)
    ensures CapturedOf(m.log + SnapshotEntry(m, pane, fate), other) ==
      CapturedOf(m.log, other) + if other == pane then Waiting(m, pane) else []
  {
    if pane in m.snapshots {
      LogSnoc(m.log, SnapshotEntry(m, pane, fate)[0], other);
    } else {
      assert m.log + SnapshotEntry(m, pane, fate) == m.log;
    }
  }

  // ---------------------------------------------------------------- what every step keeps

  ghost predicate Conserved(m: Manager, pane: string) {
    RoutedTo(m.routed, pane) == SealedOf(m.log, pane) + BufferOf(m, pane)
  }

  /** The buffer is what was routed since buffering began. */
  ghost predicate BufferTells(m: Manager, pane: string) {
    pane in m.transit ==>
      && pane in m.since && m.since[pane] <= |m.routed|
      && m.transit[pane] == RoutedTo(m.routed[m.since[pane]..], pane)
  }

  /**
   * The snapshot at `log[i]` came when all that was routed before its buffering began had been settled;
   * it is followed at once by exactly what was routed since, in order and with the same fate.
   */
  ghost predicate FollowedByItsBuffer(log: seq<Entry>, routed: seq<(string, PaneEvent)>, i: nat)
    requires i < |log| && log[i].Captured?
  {
    var c := log[i];
    && c.began <= c.ended <= |routed|
    && SealedOf(log[..i], c.pane) == RoutedTo(routed[..c.began], c.pane)
    && Deliveries(c.pane, RoutedTo(routed[c.began..c.ended], c.pane), c.fate) <= log[i + 1..]
  }

  ghost predicate SnapshotsLead(m: Manager) {
    forall i {:trigger m.log[i]} :: 0 <= i < |m.log| && m.log[i].Captured? && !m.log[i].fate.Superseded? ==>
      FollowedByItsBuffer(m.log, m.routed, i)
  }

  ghost predicate TimersOk(m: Manager) {
    && m.timers.Keys == m.transit.Keys
    && (forall p :: p in m.timers ==>
          m.timers[p] < m.nextTimer && m.timers[p] in m.scheduled && m.scheduled[m.timers[p]] == p)
    && (forall t :: t in m.scheduled ==> t < m.nextTimer && m.scheduled[t] in m.timers && m.timers[m.scheduled[t]] == t)
  }

  /** What holds even in the middle of a step, while one buffer may be over the cap. */
  ghost predicate Sound(m: Manager) {
    && TimersOk(m) && m.snapshots.Keys <= m.transit.Keys
    && (forall p :: Conserved(m, p)) && (forall p :: BufferTells(m, p)) && SnapshotsLead(m)
  }

  /**
   * Every buffered pane has one flush timer that will really fire, and there are no other timers;
   * snapshots wait only for buffered panes and lead their buffers; buffers are bounded; nothing is
   * lost or reordered.
   */
  ghost predicate ManagerOk(m: Manager) {
    Sound(m) && forall p :: p in m.transit ==> |m.transit[p]| <= TRANSIT_BUFFER_MAX
  }

  lemma LaterStillFollowed(log: seq<Entry>, more: seq<Entry>, routed: seq<(string, PaneEvent)>,
                           extra: seq<(string, PaneEvent)>, i: nat)
    requires i < |log| && log[i].Captured? && FollowedByItsBuffer(log, routed, i)
    ensures FollowedByItsBuffer(log + more, routed + extra, i)
  {
    var c := log[i];
    assert (log + more)[..i] == log[..i];
    assert (routed + extra)[..c.began] == routed[..c.began];
    assert (routed + extra)[c.began..c.ended] == routed[c.began..c.ended];
    assert (log + more)[i + 1..] == log[i + 1..] + more;
  }

  /** More in the log and more routed leave the earlier snapshots as they were. */
  lemma LeadsStay(m: Manager, m': Manager)
    requires SnapshotsLead(m) && m.log <= m'.log && m.routed <= m'.routed
    requires forall i {:trigger m'.log[i]} ::
      |m.log| <= i < |m'.log| && m'.log[i].Captured? && !m'.log[i].fate.Superseded? ==>
        FollowedByItsBuffer(m'.log, m'.routed, i)
    ensures SnapshotsLead(m')
  {
    forall i | 0 <= i < |m'.log| && m'.log[i].Captured? && !m'.log[i].fate.Superseded?
      ensures FollowedByItsBuffer(m'.log, m'.routed, i)
    {
      if i < |m.log| {
        assert m.log[i] == m'.log[i];
        LaterStillFollowed(m.log, m'.log[|m.log|..], m.routed, m'.routed[|m.routed|..], i);
        assert m'.log == m.log + m'.log[|m.log|..] && m'.routed == m.routed + m'.routed[|m.routed|..];
      }
    }
  }

  /** When a buffer tells all that was routed since it began, all before that is settled. */
  lemma SettledBefore(m: Manager, pane: string)
    requires Conserved(m, pane) && BufferTells(m, pane) && pane in m.transit
    ensures SealedOf(m.log, pane) == RoutedTo(m.routed[..m.since[pane]], pane)
  {
    var n := m.since[pane];
    RoutedConcat(m.routed[..n], m.routed[n..], pane);
    assert m.routed[..n] + m.routed[n..] == m.routed;
    var a, b := SealedOf(m.log, pane), RoutedTo(m.routed[..n], pane);
    assert a == (a + m.transit[pane])[..|a|] && b == (b + m.transit[pane])[..|b|];
  }

  /** The snapshot that a flush sends leads its own buffer. */
  lemma FlushedLeads(m: Manager, pane: string, fate: Fate)
    requires Sound(m) && pane in m.snapshots
    ensures FollowedByItsBuffer(Flush(m, pane, fate).log, m.routed, |m.log|)
  {
    var m', i := Flush(m, pane, fate), |m.log|;
    assert Conserved(m, pane) && BufferTells(m, pane);
    SettledBefore(m, pane);
    assert m'.log[..i] == m.log;
    assert m.routed[m.since[pane]..|m.routed|] == m.routed[m.since[pane]..];
    assert m'.log[i + 1..] == Deliveries(pane, m.transit[pane], fate);
  }

  lemma FlushLeads(m: Manager, pane: string, fate: Fate)
    requires Sound(m)
    ensures SnapshotsLead(Flush(m, pane, fate))
  {
    var m' := Flush(m, pane, fate);
    forall i | |m.log| <= i < |m'.log| && m'.log[i].Captured? && !m'.log[i].fate.Superseded?
      ensures FollowedByItsBuffer(m'.log, m'.routed, i)
    {
      assert i == |m.log|;
      FlushedLeads(m, pane, fate);
    }
    LeadsStay(m, m');
  }

  lemma FlushConserves(m: Manager, pane: string, fate: Fate, other: string)
    requires Conserved(m, other)
    ensures Conserved(Flush(m, pane, fate), other)
  {
    FlushSeals(m, pane, fate, other);
  }

  lemma FlushStopsTimer(m: Manager, pane: string, fate: Fate)
    requires TimersOk(m)
    ensures TimersOk(Flush(m, pane, fate))
  {
  }

  lemma FlushKeeps(m: Manager, pane: string, fate: Fate)
    requires Sound(m)
    requires forall p :: p in m.transit && p != pane ==> |m.transit[p]| <= TRANSIT_BUFFER_MAX
    ensures ManagerOk(Flush(m, pane, fate))
  {
    var m' := Flush(m, pane, fate);
    forall p ensures Conserved(m', p) { FlushConserves(m, pane, fate, p); }
    forall p ensures BufferTells(m', p) { assert BufferTells(m, p); }
    FlushStopsTimer(m, pane, fate);
    FlushLeads(m, pane, fate);
  }

  lemma {:induction false} DropPanesKeep(m: Manager, panes: seq<string>, window: string)
    requires ManagerOk(m)
    ensures ManagerOk(DropPanes(m, panes, window))
    decreases |panes|
  {
    if panes != [] {
      var m1 := m.(owner := m.owner - {panes[0]});
      OwnersAreFree(m, m1);
      FlushKeeps(m1, panes[0], ClosedWith(window));
      DropPanesKeep(DropPane(m, panes[0], window), panes[1..], window);
    }
  }

  /** Who owns what, which windows are open and what move is on do not matter to the buffers. */
  lemma OwnersAreFree(m: Manager, m': Manager)
    requires ManagerOk(m) && m' == m.(owner := m'.owner, open := m'.open, main := m'.main, inflight := m'.inflight)
    ensures ManagerOk(m')
  {
    forall p ensures Conserved(m', p) && BufferTells(m', p) { assert Conserved(m, p) && BufferTells(m, p); }
  }

  /** An event that is kept back: it joins what came in and the buffer. */
  function Buffered(m: Manager, pane: string, event: PaneEvent): Manager
    requires pane in m.transit
  {
    m.(routed := m.routed + [(pane, event)], transit := m.transit[pane := m.transit[pane] + [event]])
  }

  lemma BufferedTells(m: Manager, pane: string, event: PaneEvent, other: string)
    requires BufferTells(m, other) && pane in m.transit
    ensures BufferTells(Buffered(m, pane, event), other)
  {
    if other in m.transit {
      var n := m.since[other];
      RoutedSnoc(m.routed[n..], (pane, event), other);
      assert (m.routed + [(pane, event)])[n..] == m.routed[n..] + [(pane, event)];
    }
  }

  lemma BufferedKeeps(m: Manager, pane: string, event: PaneEvent)
    requires Sound(m) && pane in m.transit
    ensures Sound(Buffered(m, pane, event))
  {
    var m' := Buffered(m, pane, event);
    forall p ensures Conserved(m', p) {
      assert Conserved(m, p);
      RoutedSnoc(m.routed, (pane, event), p);
    }
    forall p ensures BufferTells(m', p) {
      assert BufferTells(m, p);
      BufferedTells(m, pane, event, p);
    }
    LeadsStay(m, m');
  }

  /** An event that is sent on at once. */
  function SentOn(m: Manager, pane: string, event: PaneEvent, fate: Fate): Manager {
    m.(routed := m.routed + [(pane, event)], log := m.log + [Routed(pane, event, fate)])
  }

  lemma SentOnTells(m: Manager, pane: string, event: PaneEvent, fate: Fate, other: string)
    requires BufferTells(m, other) && pane !in m.transit
    ensures BufferTells(SentOn(m, pane, event, fate), other)
  {
    if other in m.transit {
      var n := m.since[other];
      RoutedSnoc(m.routed[n..], (pane, event), other);
      assert (m.routed + [(pane, event)])[n..] == m.routed[n..] + [(pane, event)];
    }
  }

  lemma SentOnKeeps(m: Manager, pane: string, event: PaneEvent, fate: Fate)
    requires ManagerOk(m) && pane !in m.transit
    ensures ManagerOk(SentOn(m, pane, event, fate))
  {
    var m' := SentOn(m, pane, event, fate);
    forall p ensures Conserved(m', p) {
      assert Conserved(m, p);
      RoutedSnoc(m.routed, (pane, event), p);
      LogSnoc(m.log, Routed(pane, event, fate), p);
    }
    forall p ensures BufferTells(m', p) {
      assert BufferTells(m, p);
      SentOnTells(m, pane, event, fate, p);
    }
    LeadsStay(m, m');
  }

  lemma RouteKeeps(m: Manager, pane: string, event: PaneEvent)
    requires ManagerOk(m)
    ensures ManagerOk(RouteToPane(m, pane, event))
  {
    if pane in m.transit {
      var m1 := Buffered(m, pane, event);
      BufferedKeeps(m, pane, event);
      if |m1.transit[pane]| > TRANSIT_BUFFER_MAX { FlushKeeps(m1, pane, FateAt(m1, OwnerOf(m1, pane))); }
    } else {
      SentOnKeeps(m, pane, event, FateAt(m, Target(m, pane)));
    }
  }

  lemma StartKeeps(m: Manager, pane: string)
    requires ManagerOk(m) && pane !in m.transit
    ensures ManagerOk(ArmTimer(StartBuffer(m, pane), pane))
  {
    var m' := ArmTimer(StartBuffer(m, pane), pane);
    assert m.routed[|m.routed|..] == [];
    forall p ensures Conserved(m', p) && BufferTells(m', p) { assert Conserved(m, p) && BufferTells(m, p); }
    LeadsStay(m, m');
  }

  /** A snapshot is kept; the pane goes to the destination. */
  function Noted(m: Manager, pane: string, data: string): Manager
    requires m.inflight.Some?
  {
    m.(snapshots := m.snapshots[pane := data], owner := m.owner[pane := m.inflight.value.destination],
       log := m.log + SnapshotEntry(m, pane, Superseded))
  }

  lemma NotedKeeps(m: Manager, pane: string, data: string)
    requires ManagerOk(m) && m.inflight.Some? && pane in m.transit
    ensures ManagerOk(Noted(m, pane, data))
  {
    var m' := Noted(m, pane, data);
    forall p ensures Conserved(m', p) && BufferTells(m', p) {
      assert Conserved(m, p) && BufferTells(m, p);
      SnapshotSeals(m, pane, Superseded, p);
    }
    LeadsStay(m, m');
  }

  lemma SnapshotKeeps(m: Manager, pane: string, data: string)
    requires ManagerOk(m)
    ensures ManagerOk(OnSnapshot(m, pane, data))
  {
    if m.inflight.Some? {
      if pane in m.transit {
        NotedKeeps(m, pane, data);
      } else {
        assert pane !in m.snapshots && m.log + SnapshotEntry(m, pane, Superseded) == m.log;
        var m0 := ArmTimer(StartBuffer(m, pane), pane);
        StartKeeps(m, pane);
        NotedKeeps(m0, pane, data);
        assert m0.log + SnapshotEntry(m0, pane, Superseded) == m.log;
        assert OnSnapshot(m, pane, data) == Noted(m0, pane, data);
      }
    }
  }

  lemma BeginSameKeeps(m: Manager, pane: string, sender: Option<string>)
    requires ManagerOk(m)
    ensures ManagerOk(BeginSameWindowTransit(m, pane, sender))
  {
    if sender.Some? && OwnerOf(m, pane) == sender {
      FlushKeeps(m, pane, FateAt(m, OwnerOf(m, pane)));
      var m1 := if pane in m.transit then ReplayInto(m, pane) else m;
      assert EndTransit(StartBuffer(m1, pane), pane) == StartBuffer(m1, pane);
      StartKeeps(m1, pane);
    }
  }

  lemma StepKeeps(m: Manager, e: Event)
    requires ManagerOk(m)
    ensures ManagerOk(Step(m, e))
  {
    match e
    case Route(pane, event) => RouteKeeps(m, pane, event);
    case BeginSame(pane, sender) => BeginSameKeeps(m, pane, sender);
    case Readopted(pane) => FlushKeeps(m, pane, FateAt(m, OwnerOf(m, pane)));
    case TimerFires(timer) =>
      if timer in m.scheduled {
        FlushKeeps(m, m.scheduled[timer], FateAt(m, OwnerOf(m, m.scheduled[timer])));
      }
    case Snapshot(pane, data) => SnapshotKeeps(m, pane, data);
    case WindowCloses(window, order, main) =>
      var m1 := m.(open := m.open - {window}, main := main);
      OwnersAreFree(m, m1);
      DropPanesKeep(m1, OwnedBy(m, order, window), window);
    case _ => OwnersAreFree(m, Step(m, e));
  }

  lemma {:induction false} RunKeeps(m: Manager, events: seq<Event>)
    requires ManagerOk(m)
    ensures ManagerOk(Run(m, events))
    decreases |events|
  {
    if events != [] {
      StepKeeps(m, events[0]);
      RunKeeps(Step(m, events[0]), events[1..]);
    }
  }

  lemma EveryRun(events: seq<Event>)
    ensures ManagerOk(Run(Empty, events))
  {
    forall p ensures Conserved(Empty, p) && BufferTells(Empty, p) {}
    RunKeeps(Empty, events);
  }

  /** After any run: bounded buffers, one real timer per buffered pane and none else, no orphaned snapshot. */
  lemma BuffersAreBoundedAndTimed(events: seq<Event>)
    ensures var m := Run(Empty, events);
      && TimersOk(m) && m.snapshots.Keys <= m.transit.Keys
      && forall p :: p in m.transit ==> |m.transit[p]| <= TRANSIT_BUFFER_MAX
  {
    EveryRun(events);
  }

  /** After any run, every snapshot that was sent, or lost, led exactly its own buffer. */
  lemma SnapshotLeadsItsBuffer(events: seq<Event>, i: nat)
    requires i < |Run(Empty, events).log| && Run(Empty, events).log[i].Captured?
    requires !Run(Empty, events).log[i].fate.Superseded?
    ensures FollowedByItsBuffer(Run(Empty, events).log, Run(Empty, events).routed, i)
  {
    EveryRun(events);
  }

  // ---------------------------------------------------------------- what reaches the windows

  /** The routed events of one pane that an open window received, in order. */
  function SentOf(log: seq<Entry>, pane: string): seq<PaneEvent> {
    if log == [] then []
    else
      var last := log[|log| - 1];
      SentOf(log[..|log| - 1], pane)
      + if last.Routed? && last.pane == pane && last.fate.Reached? then [last.event] else []
  }

  /** The snapshots of one pane that an open window received, in order. */
  function ShownOf(log: seq<Entry>, pane: string): seq<string> {
    if log == [] then []
    else
      var last := log[|log| - 1];
      ShownOf(log[..|log| - 1], pane)
      + if last.Captured? && last.pane == pane && last.fate.Reached? then [last.data] else []
  }

  /** Every attempt to deliver something of this pane, event or snapshot, found its window. */
  ghost predicate NeverMissed(log: seq<Entry>, pane: string) {
    forall i :: 0 <= i < |log| && log[i].pane == pane ==> log[i].fate.Reached?
  }

  lemma {:induction false} ReachedIsSealedIff(log: seq<Entry>, pane: string)
    ensures |SentOf(log, pane)| <= |SealedOf(log, pane)| && |ShownOf(log, pane)| <= |CapturedOf(log, pane)|
    ensures NeverMissed(log, pane) <==>
      |SentOf(log, pane)| == |SealedOf(log, pane)| && |ShownOf(log, pane)| == |CapturedOf(log, pane)|
    ensures NeverMissed(log, pane) ==> SentOf(log, pane) == SealedOf(log, pane)
    ensures NeverMissed(log, pane) ==> ShownOf(log, pane) == CapturedOf(log, pane)
    decreases |log|
  {
    if log != [] {
      ReachedIsSealedIff(log[..|log| - 1], pane);
      MissedSnoc(log[..|log| - 1], log[|log| - 1], pane);
      assert log == log[..|log| - 1] + [log[|log| - 1]];
    }
  }

  lemma MissedSnoc(log: seq<Entry>, entry: Entry, pane: string)
    ensures NeverMissed(log + [entry], pane) <==> NeverMissed(log, pane) && (entry.pane == pane ==> entry.fate.Reached?)
  {
    var log' := log + [entry];
    assert log'[|log|] == entry;
    assert forall i :: 0 <= i < |log| ==> log'[i] == log[i];
  }

  /** Which window a delivery for `pane` would look for now. */
  function Target(m: Manager, pane: string): Option<string> {
    if pane in m.transit || pane in m.owner then OwnerOf(m, pane) else m.main
  }

  predicate TargetOpen(m: Manager, pane: string) {
    Target(m, pane).Some? && Target(m, pane).value in m.open
  }

  predicate NothingWaits(m: Manager, pane: string) {
    BufferOf(m, pane) == [] && pane !in m.snapshots
  }

  /** A flush now would lose nothing: nothing waits, or the owning window is open. */
  predicate FlushIsSafe(m: Manager, pane: string) {
    NothingWaits(m, pane) || (pane in m.owner && m.owner[pane] in m.open)
  }

  /** Read off the state before the step: event `e` will lose nothing of `pane`. */
  predicate Safe(m: Manager, e: Event, pane: string) {
    match e
    case Route(p, event) =>
      p != pane || TargetOpen(m, pane) || (pane in m.transit && |m.transit[pane]| < TRANSIT_BUFFER_MAX)
    case BeginSame(p, sender) =>
      p != pane || pane !in m.transit || sender.None? || OwnerOf(m, pane) != sender || FlushIsSafe(m, pane)
    case Readopted(p) => p != pane || FlushIsSafe(m, pane)
    case TimerFires(timer) => timer !in m.scheduled || m.scheduled[timer] != pane || FlushIsSafe(m, pane)
    case Snapshot(p, data) => p != pane || m.inflight.None? || pane !in m.snapshots
    case WindowCloses(window, order, main) =>
      pane !in order || OwnerOf(m, pane) != Some(window) || NothingWaits(m, pane)
    case _ => true
  }

  lemma {:induction false} DeliveriesMissIff(log: seq<Entry>, p: string, events: seq<PaneEvent>, fate: Fate,
      pane: string)
    ensures NeverMissed(log + Deliveries(p, events, fate), pane) <==>
      NeverMissed(log, pane) && (p != pane || events == [] || fate.Reached?)
    decreases |events|
  {
    if events == [] {
      assert log + Deliveries(p, events, fate) == log;
    } else {
      var front, last := events[..|events| - 1], events[|events| - 1];
      DeliveriesMissIff(log, p, front, fate, pane);
      DeliveriesSnoc(p, front, last, fate);
      MissedSnoc(log + Deliveries(p, front, fate), Routed(p, last, fate), pane);
      assert events == front + [last];
      SnocAppend(log, Deliveries(p, front, fate), Routed(p, last, fate));
    }
  }

  lemma SnapshotMissesIff(m: Manager, p: string, fate: Fate, pane: string)
    ensures NeverMissed(m.log + SnapshotEntry(m, p, fate), pane) <==>
      NeverMissed(m.log, pane) && (p != pane || pane !in m.snapshots || fate.Reached?)
  {
    if p in m.snapshots {
      MissedSnoc(m.log, SnapshotEntry(m, p, fate)[0], pane);
    } else {
      assert m.log + SnapshotEntry(m, p, fate) == m.log;
    }
  }

  lemma FlushMissesIff(m: Manager, p: string, fate: Fate, pane: string)
    ensures NeverMissed(Flush(m, p, fate).log, pane) <==>
      NeverMissed(m.log, pane) && (p != pane || NothingWaits(m, pane) || fate.Reached?)
  {
    SnapshotMissesIff(m, p, fate, pane);
    DeliveriesMissIff(m.log + SnapshotEntry(m, p, fate), p, BufferOf(m, p), fate, pane);
  }

  lemma {:induction false} DropPanesMissIff(m: Manager, panes: seq<string>, window: string, pane: string)
    ensures NeverMissed(DropPanes(m, panes, window).log, pane) <==>
      NeverMissed(m.log, pane) && (pane !in panes || NothingWaits(m, pane))
    decreases |panes|
  {
    if panes != [] {
      var m1 := m.(owner := m.owner - {panes[0]});
      FlushMissesIff(m1, panes[0], ClosedWith(window), pane);
      DropPanesMissIff(DropPane(m, panes[0], window), panes[1..], window, pane);
    }
  }

  lemma RouteMissesIff(m: Manager, p: string, event: PaneEvent, pane: string)
    ensures NeverMissed(RouteToPane(m, p, event).log, pane) <==>
      NeverMissed(m.log, pane) && Safe(m, Route(p, event), pane)
  {
    if p in m.transit {
      var m1 := Buffered(m, p, event);
      FlushMissesIff(m1, p, FateAt(m1, OwnerOf(m1, p)), pane);
    } else {
      MissedSnoc(m.log, Routed(p, event, FateAt(m, Target(m, p))), pane);
    }
  }

  lemma BeginSameMissesIff(m: Manager, p: string, sender: Option<string>, pane: string)
    ensures NeverMissed(BeginSameWindowTransit(m, p, sender).log, pane) <==>
      NeverMissed(m.log, pane) && Safe(m, BeginSame(p, sender), pane)
  {
    FlushMissesIff(m, p, FateAt(m, OwnerOf(m, p)), pane);
  }

  lemma CloseMissesIff(m: Manager, window: string, order: seq<string>, main: Option<string>, pane: string)
    ensures NeverMissed(Step(m, WindowCloses(window, order, main)).log, pane) <==>
      NeverMissed(m.log, pane) && Safe(m, WindowCloses(window, order, main), pane)
  {
    DropPanesMissIff(m.(open := m.open - {window}, main := main), OwnedBy(m, order, window), window, pane);
  }

  /** Whether a step loses something of a pane is decided by its guard, for every kind of step. */
  lemma StepMissesIff(m: Manager, e: Event, pane: string)
    ensures NeverMissed(Step(m, e).log, pane) <==> NeverMissed(m.log, pane) && Safe(m, e, pane)
  {
    match e
    case Route(p, event) => RouteMissesIff(m, p, event, pane);
    case BeginSame(p, sender) => BeginSameMissesIff(m, p, sender, pane);
    case Readopted(p) => FlushMissesIff(m, p, FateAt(m, OwnerOf(m, p)), pane);
    case TimerFires(timer) =>
      if timer in m.scheduled {
        FlushMissesIff(m, m.scheduled[timer], FateAt(m, OwnerOf(m, m.scheduled[timer])), pane);
      }
    case Snapshot(p, data) => SnapshotMissesIff(m, p, Superseded, pane);
    case WindowCloses(window, order, main) => CloseMissesIff(m, window, order, main, pane);
    case _ =>
  }

  /** Every step of the run is safe for `pane`, judged in the state it starts from. */
  predicate SafeRun(m: Manager, events: seq<Event>, pane: string)
    decreases |events|
  {
    events == [] || (Safe(m, events[0], pane) && SafeRun(Step(m, events[0]), events[1..], pane))
  }

  lemma {:induction false} RunMissesIff(m: Manager, events: seq<Event>, pane: string)
    ensures NeverMissed(Run(m, events).log, pane) <==> NeverMissed(m.log, pane) && SafeRun(m, events, pane)
    decreases |events|
  {
    if events != [] {
      StepMissesIff(m, events[0], pane);
      RunMissesIff(Step(m, events[0]), events[1..], pane);
    }
  }

  /** The snapshot of `pane` that the step keeps, if it brings one. */
  function Taken(m: Manager, e: Event, pane: string): seq<string> {
    if e.Snapshot? && e.pane == pane && m.inflight.Some? then [e.data] else []
  }

  function TakenIn(m: Manager, events: seq<Event>, pane: string): seq<string>
    decreases |events|
  {
    if events == [] then [] else Taken(m, events[0], pane) + TakenIn(Step(m, events[0]), events[1..], pane)
  }

  /** Every snapshot of `pane` so far: settled, then waiting. */
  function SoFar(m: Manager, pane: string): seq<string> {
    CapturedOf(m.log, pane) + Waiting(m, pane)
  }

  lemma FlushSettlesSnapshots(m: Manager, p: string, fate: Fate, pane: string)
    ensures SoFar(Flush(m, p, fate), pane) == SoFar(m, pane)
  {
    FlushSeals(m, p, fate, pane);
  }

  lemma {:induction false} DropPanesSettle(m: Manager, panes: seq<string>, window: string, pane: string)
    ensures SoFar(DropPanes(m, panes, window), pane) == SoFar(m, pane)
    decreases |panes|
  {
    if panes != [] {
      var m1 := m.(owner := m.owner - {panes[0]});
      FlushSettlesSnapshots(m1, panes[0], ClosedWith(window), pane);
      DropPanesSettle(DropPane(m, panes[0], window), panes[1..], window, pane);
      assert SoFar(m1, pane) == SoFar(m, pane);
    }
  }

  lemma RouteSettlesNoSnapshot(m: Manager, p: string, event: PaneEvent, pane: string)
    ensures SoFar(RouteToPane(m, p, event), pane) == SoFar(m, pane)
  {
    if p in m.transit {
      var m1 := Buffered(m, p, event);
      FlushSettlesSnapshots(m1, p, FateAt(m1, OwnerOf(m1, p)), pane);
      assert SoFar(m1, pane) == SoFar(m, pane);
    } else {
      LogSnoc(m.log, Routed(p, event, FateAt(m, Target(m, p))), pane);
    }
  }

  lemma BeginSameSettlesNoSnapshot(m: Manager, p: string, sender: Option<string>, pane: string)
    ensures SoFar(BeginSameWindowTransit(m, p, sender), pane) == SoFar(m, pane)
  {
    FlushSettlesSnapshots(m, p, FateAt(m, OwnerOf(m, p)), pane);
  }

  lemma SnapshotJoins(m: Manager, p: string, data: string, pane: string)
    ensures SoFar(OnSnapshot(m, p, data), pane) == SoFar(m, pane) + Taken(m, Snapshot(p, data), pane)
  {
    if m.inflight.Some? {
      var m' := OnSnapshot(m, p, data);
      SnapshotSeals(m, p, Superseded, pane);
      assert m'.log == m.log + SnapshotEntry(m, p, Superseded);
      assert Waiting(m', pane) == if pane == p then [data] else Waiting(m, pane);
    } else {
      assert OnSnapshot(m, p, data) == m;
    }
  }

  /** A snapshot that was taken is settled or waits; none appears or vanishes otherwise. */
  lemma StepSettlesSnapshots(m: Manager, e: Event, pane: string)
    ensures SoFar(Step(m, e), pane) == SoFar(m, pane) + Taken(m, e, pane)
  {
    match e
    case Route(p, event) => RouteSettlesNoSnapshot(m, p, event, pane);
    case BeginSame(p, sender) => BeginSameSettlesNoSnapshot(m, p, sender, pane);
    case Readopted(p) => FlushSettlesSnapshots(m, p, FateAt(m, OwnerOf(m, p)), pane);
    case TimerFires(timer) =>
      if timer in m.scheduled {
        FlushSettlesSnapshots(m, m.scheduled[timer], FateAt(m, OwnerOf(m, m.scheduled[timer])), pane);
      }
    case Snapshot(p, data) => SnapshotJoins(m, p, data, pane);
    case WindowCloses(window, order, main) =>
      DropPanesSettle(m.(open := m.open - {window}, main := main), OwnedBy(m, order, window), window, pane);
    case _ =>
  }

  lemma {:induction false} RunSettlesSnapshots(m: Manager, events: seq<Event>, pane: string)
    ensures SoFar(Run(m, events), pane) == SoFar(m, pane) + TakenIn(m, events, pane)
    decreases |events|
  {
    if events != [] {
      var m1 := Step(m, events[0]);
      StepSettlesSnapshots(m, events[0], pane);
      RunSettlesSnapshots(m1, events[1..], pane);
      Regroup(SoFar(m, pane), Taken(m, events[0], pane), TakenIn(m1, events[1..], pane));
    }
  }

  lemma Regroup<T>(a: seq<T>, b: seq<T>, c: seq<T>)
    ensures (a + b) + c == a + (b + c)
  {
  }

  lemma LengthsAddUp<T>(a: seq<T>, a': seq<T>, b: seq<T>)
    requires |a| <= |a'|
    ensures a + b == a' + b <==> a == a'
  {
    if a + b == a' + b {
      assert |a| == |a'|;
      assert (a + b)[..|a|] == a && (a' + b)[..|a'|] == a';
    }
  }

  /**
   * After any run, what a pane's windows received followed by what still waits is exactly what came
   * in for it, events and snapshots, once each and in order, if and only if every step was safe: the
   * window it delivered to was open, no window closed over something waiting, no snapshot was replaced.
   */
  lemma NothingLostIffSafe(events: seq<Event>, pane: string)
    ensures var m := Run(Empty, events);
      (&& SentOf(m.log, pane) + BufferOf(m, pane) == RoutedTo(m.routed, pane)
       && ShownOf(m.log, pane) + Waiting(m, pane) == TakenIn(Empty, events, pane))
      <==> SafeRun(Empty, events, pane)
  {
    var m := Run(Empty, events);
    EveryRun(events);
    assert Conserved(m, pane);
    RunSettlesSnapshots(Empty, events, pane);
    RunMissesIff(Empty, events, pane);
    ReachedIsSealedIff(m.log, pane);
    LengthsAddUp(SentOf(m.log, pane), SealedOf(m.log, pane), BufferOf(m, pane));
    LengthsAddUp(ShownOf(m.log, pane), CapturedOf(m.log, pane), Waiting(m, pane));
  }

  function Repeat(e: Event, n: nat): seq<Event> {
    seq(n, _ => e)
  }

  lemma {:induction false} FillBuffer(m: Manager, pane: string, event: PaneEvent, n: nat)
    requires pane in m.transit && |m.transit[pane]| + n <= TRANSIT_BUFFER_MAX
    ensures var m' := Run(m, Repeat(Route(pane, event), n));
      m' == m.(routed := m'.routed, transit := m'.transit) && pane in m'.transit
        && |m'.transit[pane]| == |m.transit[pane]| + n
    decreases n
  {
    if n > 0 {
      var e := Route(pane, event);
      assert Repeat(e, n)[1..] == Repeat(e, n - 1);
      FillBuffer(Step(m, e), pane, event, n - 1);
    }
  }

  lemma {:induction false} RunConcat(m: Manager, a: seq<Event>, b: seq<Event>)
    ensures Run(m, a + b) == Run(Run(m, a), b)
    decreases |a|
  {
    if a == [] {
      assert a + b == b;
    } else {
      RunConcat(Step(m, a[0]), a[1..], b);
      DropFirst(a, b);
    }
  }

  /** A tear-off up to the moment its snapshot arrives: the destination window does not exist yet. */
  function TearOff(pane: string): seq<Event> {
    [WindowOpens("main", Some("main")), Claim(pane, Some("main")), MoveStarts(Move("ws", "new")),
     Snapshot(pane, "screen")]
  }

  lemma TornOff(pane: string)
    ensures var m := Run(Empty, TearOff(pane));
      && m.transit == map[pane := []] && m.snapshots == map[pane := "screen"] && m.owner == map[pane := "new"]
      && m.open == {"main"} && m.log == []
  {
    var t := TearOff(pane);
    var m1 := Step(Empty, t[0]);
    var m2 := Step(m1, t[1]);
    var m3 := Step(m2, t[2]);
    var m4 := Step(m3, t[3]);
    assert Run(m3, t[3..]) == m4 by { assert t[3..] == [t[3]]; }
    assert Run(m2, t[2..]) == m4 by { assert t[2..][1..] == t[3..]; }
    assert Run(m1, t[1..]) == m4 by { assert t[1..][1..] == t[2..]; }
  }

  /** A burst during a tear-off overflows into a window that is not there, and is gone. */
  lemma BurstDuringTearOffIsLost(pane: string, event: PaneEvent)
    ensures var m := Run(Empty, TearOff(pane) + Repeat(Route(pane, event), TRANSIT_BUFFER_MAX + 1));
      !NeverMissed(m.log, pane) && pane !in m.transit && pane !in m.snapshots
  {
    var t, e, n := TearOff(pane), Route(pane, event), TRANSIT_BUFFER_MAX;
    TornOff(pane);
    var m4 := Run(Empty, t);
    FillBuffer(m4, pane, event, n);
    var m5 := Run(m4, Repeat(e, n));
    assert Repeat(e, n + 1) == Repeat(e, n) + [e];
    RunConcat(m4, Repeat(e, n), [e]);
    RunConcat(Empty, t, Repeat(e, n + 1));
    assert Run(m5, [e]) == Step(m5, e) by { assert [e][1..] == []; }
    StepMissesIff(m5, e, pane);
  }

  lemma {:induction false} OwnedByReadsOwners(m: Manager, m': Manager, order: seq<string>, window: string)
    requires m.owner == m'.owner
    ensures OwnedBy(m, order, window) == OwnedBy(m', order, window)
    decreases |order|
  {
    if order != [] { OwnedByReadsOwners(m, m', order[1..], window); }
  }

  lemma {:induction false} DropPanesOwners(m: Manager, panes: seq<string>, window: string)
    ensures forall p :: p in DropPanes(m, panes, window).owner <==> p in m.owner && p !in panes
    ensures forall p :: p in DropPanes(m, panes, window).owner ==> DropPanes(m, panes, window).owner[p] == m.owner[p]
    ensures forall p :: p in DropPanes(m, panes, window).transit <==> p in m.transit && p !in panes
    decreases |panes|
  {
    if panes != [] { DropPanesOwners(DropPane(m, panes[0], window), panes[1..], window); }
  }

  /** Once a window has closed, no pane is owned by it and no other pane's owner or buffer was touched. */
  lemma ClosedWindowOwnsNothing(m: Manager, window: string, order: seq<string>, main: Option<string>)
    requires forall p :: p in m.owner ==> p in order
    ensures var m' := Step(m, WindowCloses(window, order, main));
      && (forall p :: OwnerOf(m', p) == if OwnerOf(m, p) == Some(window) then None else OwnerOf(m, p))
      && (forall p :: p in m'.transit <==> p in m.transit && OwnerOf(m, p) != Some(window))
  {
    DropPanesOwners(m.(open := m.open - {window}, main := main), OwnedBy(m, order, window), window);
  }

  /** What a flush will log depends neither on the timers nor on who owns the pane. */
  lemma EntryIgnoresTimers(m: Manager, m': Manager, pane: string)
    requires m' == m.(timers := m'.timers, scheduled := m'.scheduled, owner := m'.owner)
    ensures BufferOf(m', pane) == BufferOf(m, pane)
    ensures forall fate :: SnapshotEntry(m', pane, fate) == SnapshotEntry(m, pane, fate)
  {
  }

  // ---------------------------------------------------------------- the object

  /** The window manager's handoff state. */
  class WindowManager {
    var open: set<string>
    var main: Option<string>
    var owner: map<string, string>
    var transit: map<string, seq<PaneEvent>>
    var timers: map<string, nat>
    var scheduled: map<nat, string>
    var nextTimer: nat
    var snapshots: map<string, string>
    var inflight: Option<Move>
    var routed: seq<(string, PaneEvent)>
    var log: seq<Entry>
    var since: map<string, nat>

    ghost function State(): Manager
      reads this
    {
      Manager(open, main, owner, transit, timers, scheduled, nextTimer, snapshots, inflight, routed, log, since)
    }

    constructor ()
      ensures State() == Empty
    {
      open, main, owner, transit, timers, scheduled := {}, None, map[], map[], map[], map[];
      nextTimer, snapshots, inflight, routed, log, since := 0, map[], None, [], [], map[];
    }

    method Attempt(pane: string, event: PaneEvent, window: Option<string>)
      modifies `log
      ensures log == old(log) + [Routed(pane, event, FateAt(State(), window))]
    {
      var fate := if window.Some? && window.value in open then Reached(window.value) else NoWindow;
      log := log + [Routed(pane, event, fate)];
    }

    method ClearTimer(pane: string)
      modifies `timers, `scheduled
      ensures State() == EndTransit(old(State()), pane)
    {
      if pane in timers {
        scheduled := scheduled - {timers[pane]};
        timers := timers - {pane};
      }
    }

    method SetTimer(pane: string)
      modifies `timers, `scheduled, `nextTimer
      ensures State() == ArmTimer(old(State()), pane)
    {
      timers := timers[pane := nextTimer];
      scheduled := scheduled[nextTimer := pane];
      nextTimer := nextTimer + 1;
    }

    method Replay(pane: string)
      modifies `timers, `scheduled, `snapshots, `transit, `log, `since
      ensures State() == ReplayInto(old(State()), pane)
    {
      ClearTimer(pane);
      var window := if pane in owner then Some(owner[pane]) else None;
      var buffered := if pane in transit then transit[pane] else [];
      EntryIgnoresTimers(old(State()), State(), pane);
      SettleSnapshot(pane, if window.Some? && window.value in open then Reached(window.value) else NoWindow);
      StopBuffering(pane);
      SendAll(pane, buffered, window);
    }

    /** One send after the other, to wherever the window is. */
    method SendAll(pane: string, events: seq<PaneEvent>, window: Option<string>)
      modifies `log
      ensures log == old(log) + Deliveries(pane, events, FateAt(State(), window))
    {
      ghost var fate := FateAt(State(), window);
      var k := 0;
      while k < |events|
        invariant 0 <= k <= |events| && log == old(log) + Deliveries(pane, events[..k], fate)
      {
        Attempt(pane, events[k], window);
        DeliveriesSnoc(pane, events[..k], events[k], fate);
        assert events[..k + 1] == events[..k] + [events[k]];
        k := k + 1;
      }
      assert events[..k] == events;
    }

    method OnRoute(pane: string, event: PaneEvent)
      modifies this
      ensures State() == RouteToPane(old(State()), pane, event)
    {
      routed := routed + [(pane, event)];
      if pane in transit {
        transit := transit[pane := transit[pane] + [event]];
        if |transit[pane]| > TRANSIT_BUFFER_MAX { Replay(pane); }
        return;
      }
      Attempt(pane, event, if pane in owner then Some(owner[pane]) else main);
    }

    method OnBeginSameWindow(pane: string, sender: Option<string>)
      modifies this
      ensures State() == BeginSameWindowTransit(old(State()), pane, sender)
    {
      if sender.None? || pane !in owner || owner[pane] != sender.value { return; }
      if pane in transit { Replay(pane); }
      transit := transit[pane := []];
      since := since[pane := |routed|];
      ClearTimer(pane);
      SetTimer(pane);
    }

    method OnCaptured(pane: string, data: string)
      modifies this
      ensures State() == OnSnapshot(old(State()), pane, data)
    {
      if inflight.None? { return; }
      SettleSnapshot(pane, Superseded);
      snapshots := snapshots[pane := data];
      owner := owner[pane := inflight.value.destination];
      if pane !in transit {
        transit := transit[pane := []];
        since := since[pane := |routed|];
        SetTimer(pane);
      }
    }

    method Drop(pane: string, window: string)
      modifies this
      ensures State() == DropPane(old(State()), pane, window)
    {
      owner := owner - {pane};
      ClearTimer(pane);
      EntryIgnoresTimers(old(State()), State(), pane);
      LoseAll(pane, window);
      StopBuffering(pane);
    }

    /** Live output flows again. */
    method StopBuffering(pane: string)
      modifies `snapshots, `transit, `since
      ensures snapshots == old(snapshots) - {pane} && transit == old(transit) - {pane} && since == old(since) - {pane}
    {
      snapshots, transit, since := snapshots - {pane}, transit - {pane}, since - {pane};
    }

    /** The waiting snapshot, if there is one, meets its fate. */
    method SettleSnapshot(pane: string, fate: Fate)
      modifies `log
      ensures log == old(log) + SnapshotEntry(old(State()), pane, fate)
    {
      if pane in snapshots {
        log := log + [Captured(pane, snapshots[pane], if pane in since then since[pane] else |routed|, |routed|, fate)];
      }
    }

    /** Bookkeeping only: the log notes what the closed window took with it. */
    method LoseAll(pane: string, window: string)
      modifies `log
      ensures log == old(log) + SnapshotEntry(old(State()), pane, ClosedWith(window))
                     + Deliveries(pane, BufferOf(old(State()), pane), ClosedWith(window))
    {
      SettleSnapshot(pane, ClosedWith(window));
      log := log + Deliveries(pane, if pane in transit then transit[pane] else [], ClosedWith(window));
    }

    /** `order` lists the ownership map's panes in its iteration order. */
    method OnClosed(window: string, order: seq<string>, newMain: Option<string>)
      modifies this
      ensures State() == Step(old(State()), WindowCloses(window, order, newMain))
    {
      open := open - {window};
      main := newMain;
      var panes := Panes(order, window);
      OwnedByReadsOwners(old(State()), State(), order, window);
      DropAll(panes, window);
    }

    method DropAll(panes: seq<string>, window: string)
      modifies this
      ensures State() == DropPanes(old(State()), panes, window)
    {
      var k := 0;
      while k < |panes|
        invariant 0 <= k <= |panes|
        invariant DropPanes(State(), panes[k..], window) == DropPanes(old(State()), panes, window)
      {
        assert panes[k..][0] == panes[k] && panes[k..][1..] == panes[k + 1..];
        Drop(panes[k], window);
        k := k + 1;
      }
    }

    method Panes(order: seq<string>, window: string) returns (panes: seq<string>)
      ensures panes == OwnedBy(State(), order, window)
    {
      panes := [];
      var k := |order|;
      while k > 0
        invariant 0 <= k <= |order| && panes == OwnedBy(State(), order[k..], window)
      {
        k := k - 1;
        if order[k] in owner && owner[order[k]] == window { panes := [order[k]] + panes; }
      }
    }
  }
}
