/**
 * The gate of one pane and the ack policy of its client, joined by two FIFO wires: payload sizes
 * one way, acknowledgements the other. Every arrival of data arms the client's quiet timer, and when
 * it fires the client acknowledges its residue. The gate's window and the client's cadence are fixed.
 */
module AckLoop {
  import opened Chunks
  import opened FlowControl

  /** What the client adds up; an ack carries the whole accumulation and resets it. */
  function OnData(pending: nat, ackEvery: nat, size: nat): (nat, Option<nat>) {
    if size == 0 then (pending, None)
    else if pending + size >= ackEvery then (0, Some(pending + size))
    else (pending + size, None)
  }

  /** The one pane of the loop. */
  const PANE: string := "pane"

  /** `armed` says that the quiet timer is running. */
  datatype Loop = Loop(gate: GateState, data: seq<nat>, pending: nat, acks: seq<nat>, armed: bool)

  datatype Step = AgentEmits(data: string) | ClientReceives | QuietTimerFires | AgentReceivesAck

  function Next(l: Loop, step: Step, ackEvery: nat): Loop {
    match step
    case AgentEmits(data) => l.(gate := OnDataEmitted(l.gate, PANE, data).0, data := l.data + [|data|])
    case ClientReceives =>
      if l.data == [] then l
      else
        var (pending, ack) := OnData(l.pending, ackEvery, l.data[0]);
        Loop(l.gate, l.data[1..], pending, if ack.Some? then l.acks + [ack.value] else l.acks, true)
    case QuietTimerFires =>
      if !l.armed then l
      else l.(armed := false, pending := 0, acks := if l.pending > 0 then l.acks + [l.pending] else l.acks)
    case AgentReceivesAck =>
      if l.acks == [] then l else l.(gate := OnAck(l.gate, PANE, l.acks[0]).0, acks := l.acks[1..])
  }

  function Start(window: nat): Loop {
    Loop(GateState(window, map[]), [], 0, [], false)
  }

  function Run(l: Loop, steps: seq<Step>, ackEvery: nat): Loop
    decreases |steps|
  {
    if steps == [] then l else Run(Next(l, steps[0], ackEvery), steps[1..], ackEvery)
  }

  function Sum(sizes: seq<nat>): nat {
    if sizes == [] then 0 else sizes[0] + Sum(sizes[1..])
  }

  lemma {:induction false} SumSnoc(sizes: seq<nat>, last: nat)
    ensures Sum(sizes + [last]) == Sum(sizes) + last
  {
    if sizes == [] {
      assert sizes + [last] == [last];
    } else {
      SumSnoc(sizes[1..], last);
      assert (sizes + [last])[1..] == sizes[1..] + [last];
    }
  }

  /**
   * Nothing is counted twice or forgotten: unacked bytes are on a wire or in the client's residue,
   * and a residue never waits without a timer.
   */
  ghost predicate Conserved(l: Loop, window: nat, ackEvery: nat) {
    && Unacked(l.gate, PANE) == Sum(l.data) + l.pending + Sum(l.acks)
    && l.pending < ackEvery && (l.pending > 0 ==> l.armed)
    && Settled(l.gate) && l.gate.defaultWindow == window
    && (PANE in l.gate.panes ==> l.gate.panes[PANE].explicitWindow.None?)
  }

  lemma NextConserves(l: Loop, step: Step, window: nat, ackEvery: nat)
    requires Conserved(l, window, ackEvery)
    ensures Conserved(Next(l, step, ackEvery), window, ackEvery)
  {
    match step
    case AgentEmits(data) => SumSnoc(l.data, |data|);
    case ClientReceives =>
      if l.data != [] {
        var (pending, ack) := OnData(l.pending, ackEvery, l.data[0]);
        if ack.Some? { SumSnoc(l.acks, ack.value); }
      }
    case QuietTimerFires => SumSnoc(l.acks, l.pending);
    case AgentReceivesAck =>
  }

  lemma {:induction false} RunConserves(l: Loop, steps: seq<Step>, window: nat, ackEvery: nat)
    requires Conserved(l, window, ackEvery)
    ensures Conserved(Run(l, steps, ackEvery), window, ackEvery)
    decreases |steps|
  {
    if steps != [] {
      NextConserves(l, steps[0], window, ackEvery);
      RunConserves(Next(l, steps[0], ackEvery), steps[1..], window, ackEvery);
    }
  }

  /** No run makes the client acknowledge more than the gate has outstanding. */
  lemma NeverOverAcks(steps: seq<Step>, window: nat, ackEvery: nat)
    requires ackEvery > 0
    ensures var l := Run(Start(window), steps, ackEvery); l.acks != [] ==> l.acks[0] <= Unacked(l.gate, PANE)
  {
    RunConserves(Start(window), steps, window, ackEvery);
  }

  // ---------------------------------------------------------------- liveness

  /** Nothing is on its way any more: no data, no ack, no timer. */
  ghost predicate AtRest(l: Loop) {
    l.data == [] && l.acks == [] && !l.armed
  }

  /** Whatever window and cadence: a pane is never left paused with nothing on its way. */
  lemma NeverStuck(steps: seq<Step>, window: nat, ackEvery: nat)
    requires ackEvery > 0 && AtRest(Run(Start(window), steps, ackEvery))
    ensures var gate := Run(Start(window), steps, ackEvery).gate; Unacked(gate, PANE) == 0 && !IsPaused(gate, PANE)
  {
    RunConserves(Start(window), steps, window, ackEvery);
  }

  function Repeat(step: Step, n: nat): seq<Step> {
    seq(n, _ => step)
  }

  lemma {:induction false} RunConcat(l: Loop, a: seq<Step>, b: seq<Step>, ackEvery: nat)
    ensures Run(l, a + b, ackEvery) == Run(Run(l, a, ackEvery), b, ackEvery)
    decreases |a|
  {
    if a == [] {
      assert a + b == b;
    } else {
      RunConcat(Next(l, a[0], ackEvery), a[1..], b, ackEvery);
      DropFirst(a, b);
    }
  }

  lemma {:induction false} ReceiveAll(l: Loop, ackEvery: nat)
    ensures Run(l, Repeat(ClientReceives, |l.data|), ackEvery).data == []
    decreases |l.data|
  {
    if l.data != [] {
      assert Repeat(ClientReceives, |l.data|)[1..] == Repeat(ClientReceives, |l.data| - 1);
      ReceiveAll(Next(l, ClientReceives, ackEvery), ackEvery);
    }
  }

  lemma {:induction false} DeliverAcks(l: Loop, ackEvery: nat)
    ensures var l' := Run(l, Repeat(AgentReceivesAck, |l.acks|), ackEvery);
      l'.acks == [] && l'.data == l.data && l'.pending == l.pending
    decreases |l.acks|
  {
    if l.acks != [] {
      assert Repeat(AgentReceivesAck, |l.acks|)[1..] == Repeat(AgentReceivesAck, |l.acks| - 1);
      DeliverAcks(Next(l, AgentReceivesAck, ackEvery), ackEvery);
    }
  }

  /** The client receives what is on the wire and its timer fires; then the agent receives every ack. */
  function Drain(l: Loop, ackEvery: nat): seq<Step> {
    var client := Repeat(ClientReceives, |l.data|) + [QuietTimerFires];
    client + Repeat(AgentReceivesAck, |Run(l, client, ackEvery).acks|)
  }

  /** From every reachable state, and for every window and cadence, draining leaves the pane flowing. */
  lemma DrainResumes(steps: seq<Step>, window: nat, ackEvery: nat)
    requires ackEvery > 0
    ensures var l := Run(Start(window), steps, ackEvery);
      var gate := Run(l, Drain(l, ackEvery), ackEvery).gate;
      Unacked(gate, PANE) == 0 && !IsPaused(gate, PANE)
  {
    RunConserves(Start(window), steps, window, ackEvery);
    var l := Run(Start(window), steps, ackEvery);
    var receive := Repeat(ClientReceives, |l.data|);
    var client := receive + [QuietTimerFires];
    var l1, l2 := Run(l, receive, ackEvery), Run(l, client, ackEvery);
    ReceiveAll(l, ackEvery);
    RunConserves(l, receive, window, ackEvery);
    RunConcat(l, receive, [QuietTimerFires], ackEvery);
    assert l2 == Next(l1, QuietTimerFires, ackEvery);
    assert l2.pending == 0 && l2.data == [];
    RunConserves(l, client, window, ackEvery);
    DeliverAcks(l2, ackEvery);
    RunConcat(l, client, Repeat(AgentReceivesAck, |l2.acks|), ackEvery);
    RunConserves(l, Drain(l, ackEvery), window, ackEvery);
  }

  // ---------------------------------------------------------------- what the quiet timer is for

  /** A run whose timer never fires ends paused with both wires empty: only the residue is unacknowledged. */
  ghost predicate WaitsForTheTimer(steps: seq<Step>, window: nat, ackEvery: nat) {
    var l := Run(Start(window), steps, ackEvery);
    QuietTimerFires !in steps && l.data == [] && l.acks == [] && IsPaused(l.gate, PANE)
  }

  function Chunk(size: nat): (data: string)
    ensures |data| == size
  {
    seq(size, _ => '.')
  }

  /** Such a run, whenever the cadence is too coarse for the window. */
  function CoarseRun(ackEvery: nat): seq<Step>
    requires ackEvery > 0
  {
    [AgentEmits(Chunk(ackEvery)), AgentEmits(Chunk(ackEvery - 1)), ClientReceives, ClientReceives, AgentReceivesAck]
  }

  lemma CoarseCadenceWaits(window: nat, ackEvery: nat)
    requires ackEvery > 0 && window / 2 < ackEvery - 1
    ensures WaitsForTheTimer(CoarseRun(ackEvery), window, ackEvery)
  {
    var steps := CoarseRun(ackEvery);
    var l1 := Next(Start(window), steps[0], ackEvery);
    var l2 := Next(l1, steps[1], ackEvery);
    BothEmitted(window, ackEvery);
    var l3 := Next(l2, steps[2], ackEvery);
    var l4 := Next(l3, steps[3], ackEvery);
    assert l4.data == [] && l4.pending == ackEvery - 1 && l4.acks == [ackEvery];
    var l5 := Next(l4, steps[4], ackEvery);
    calc {
      Run(Start(window), steps, ackEvery);
      Run(l1, steps[1..], ackEvery);
      { assert steps[1..][1..] == steps[2..] && steps[1..][0] == steps[1]; }
      Run(l2, steps[2..], ackEvery);
      { assert steps[2..][1..] == steps[3..] && steps[2..][0] == steps[2]; }
      Run(l3, steps[3..], ackEvery);
      { assert steps[3..][1..] == steps[4..] && steps[3..][0] == steps[3]; }
      Run(l4, steps[4..], ackEvery);
      { assert steps[4..] == [steps[4]]; }
      Run(l5, [], ackEvery);
      l5;
    }
  }

  lemma BothEmitted(window: nat, ackEvery: nat)
    requires ackEvery > 0 && window / 2 < ackEvery - 1
    ensures var l := Next(Next(Start(window), CoarseRun(ackEvery)[0], ackEvery), CoarseRun(ackEvery)[1], ackEvery);
      && l.data == [ackEvery, ackEvery - 1] && l.acks == [] && l.pending == 0
      && Unacked(l.gate, PANE) == 2 * ackEvery - 1 && IsPaused(l.gate, PANE)
      && l.gate.defaultWindow == window && l.gate.panes[PANE].explicitWindow.None?
  {
  }

  /** The cadence alone, without the timer, always clears a pause if and only if it fits half the window. */
  lemma TimerIsNeededIffCadenceIsCoarse(window: nat, ackEvery: nat)
    requires ackEvery > 0
    ensures (exists steps :: WaitsForTheTimer(steps, window, ackEvery)) <==> ackEvery - 1 > window / 2
  {
    if ackEvery - 1 <= window / 2 {
      forall steps ensures !WaitsForTheTimer(steps, window, ackEvery) {
        RunConserves(Start(window), steps, window, ackEvery);
      }
    } else {
      CoarseCadenceWaits(window, ackEvery);
    }
  }

  /** With the default window and cadence the acks by cadence are enough. */
  lemma DefaultsNeedNoTimer(steps: seq<Step>)
    ensures !WaitsForTheTimer(steps, DEFAULT_FLOW_WINDOW_BYTES, DEFAULT_ACK_EVERY_BYTES)
  {
    TimerIsNeededIffCadenceIsCoarse(DEFAULT_FLOW_WINDOW_BYTES, DEFAULT_ACK_EVERY_BYTES);
  }
}
