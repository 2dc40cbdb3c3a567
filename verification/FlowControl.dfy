/**
 * Windowed flow control: the agent's gate (pause past the window, resume at half of it) and the
 * client's ack policy, first alone and then closed into a loop over two FIFO wires.
 */
module FlowControl {
  import opened Chunks

  const DEFAULT_FLOW_WINDOW_BYTES: nat := 1_048_576
  const DEFAULT_ACK_EVERY_BYTES: nat := 65_536

  datatype PaneFlow = PaneFlow(unacked: nat, paused: bool, explicitWindow: Option<nat>)
  datatype GateState = GateState(defaultWindow: nat, panes: map<string, PaneFlow>)
  datatype Action = Pause | Resume

  /** A gate operation answers at most one action per pane. */
  type Decisions = map<string, Action>

  const NewGate := GateState(DEFAULT_FLOW_WINDOW_BYTES, map[])
  const NewPaneFlow := PaneFlow(0, false, None)

  function WindowOf(p: PaneFlow, defaultWindow: nat): nat {
    match p.explicitWindow
    case Some(size) => size
    case None => defaultWindow
  }

  /** The hysteresis: above the window pause, at or below half of it resume, in between keep. */
  function Evaluate(p: PaneFlow, window: nat): (PaneFlow, Option<Action>) {
    if !p.paused && p.unacked > window then (p.(paused := true), Some(Pause))
    else if p.paused && p.unacked <= window / 2 then (p.(paused := false), Some(Resume))
    else (p, None)
  }

  function EvaluateIn(g: GateState, id: string, p: PaneFlow): (GateState, Decisions) {
    var (p', action) := Evaluate(p, WindowOf(p, g.defaultWindow));
    (g.(panes := g.panes[id := p']), if action.Some? then map[id := action.value] else map[])
  }

  function OnDataEmitted(g: GateState, id: string, data: string): (GateState, Decisions) {
    var p := if id in g.panes then g.panes[id] else NewPaneFlow;
    EvaluateIn(g, id, p.(unacked := p.unacked + |data|))
  }

  function OnAck(g: GateState, id: string, bytes: nat): (GateState, Decisions) {
    if id !in g.panes then (g, map[])
    else
      var p := g.panes[id];
      EvaluateIn(g, id, p.(unacked := if bytes > p.unacked then 0 else p.unacked - bytes))
  }

  function OnPaneWindow(g: GateState, id: string, size: nat): (GateState, Decisions) {
    if id !in g.panes then (g, map[])
    else EvaluateIn(g, id, g.panes[id].(explicitWindow := Some(size)))
  }

  /** The panes that follow the connection's default window, judged against a new default. */
  function OnDefaultWindow(g: GateState, size: nat): (GateState, Decisions) {
    (GateState(size, map id | id in g.panes ::
       if g.panes[id].explicitWindow.None? then Evaluate(g.panes[id], size).0 else g.panes[id]),
     map id | id in g.panes && g.panes[id].explicitWindow.None? && Evaluate(g.panes[id], size).1.Some? ::
       Evaluate(g.panes[id], size).1.value)
  }

  function OnWindow(g: GateState, size: nat, id: Option<string>): (GateState, Decisions) {
    match id
    case Some(pane) => OnPaneWindow(g, pane, size)
    case None => OnDefaultWindow(g, size)
  }

  function Prune(g: GateState, id: string): GateState {
    g.(panes := g.panes - {id})
  }

  predicate IsPaused(g: GateState, id: string) {
    id in g.panes && g.panes[id].paused
  }

  // ---------------------------------------------------------------- what every operation keeps

  /** Paused panes are above the resume mark, flowing panes are within the window. */
  ghost predicate Settled(g: GateState) {
    forall id :: id in g.panes ==> SettledPane(g.panes[id], WindowOf(g.panes[id], g.defaultWindow))
  }

  predicate SettledPane(p: PaneFlow, window: nat) {
    if p.paused then p.unacked > window / 2 else p.unacked <= window
  }

  datatype GateOp =
    | Emitted(id: string, data: string)
    | Acked(id: string, bytes: nat)
    | Window(size: nat, pane: Option<string>)
    | Exited(id: string)

  function Apply(g: GateState, op: GateOp): (GateState, Decisions) {
    match op
    case Emitted(id, data) => OnDataEmitted(g, id, data)
    case Acked(id, bytes) => OnAck(g, id, bytes)
    case Window(size, pane) => OnWindow(g, size, pane)
    case Exited(id) => (Prune(g, id), map[])
  }

  /** The decisions are exactly the changes of the paused flags, and the gate is settled again. */
  lemma ApplyKeeps(g: GateState, op: GateOp)
    requires Settled(g)
    ensures Settled(Apply(g, op).0)
    ensures forall id :: id in Apply(g, op).1 && Apply(g, op).1[id] == Pause ==>
      !IsPaused(g, id) && IsPaused(Apply(g, op).0, id)
    ensures forall id :: id in Apply(g, op).1 && Apply(g, op).1[id] == Resume ==>
      IsPaused(g, id) && !IsPaused(Apply(g, op).0, id)
    ensures forall id :: id !in Apply(g, op).1 && op != Exited(id) ==> IsPaused(Apply(g, op).0, id) == IsPaused(g, id)
  {
    match op
    case Emitted(id, data) =>
      var p := if id in g.panes then g.panes[id] else NewPaneFlow;
      EvaluateKeeps(g, id, p.(unacked := p.unacked + |data|));
    case Acked(id, bytes) =>
      if id in g.panes {
        var p := g.panes[id];
        EvaluateKeeps(g, id, p.(unacked := if bytes > p.unacked then 0 else p.unacked - bytes));
      }
    case Window(size, pane) =>
      if pane.None? {
        DefaultWindowKeeps(g, size);
      } else if pane.value in g.panes {
        EvaluateKeeps(g, pane.value, g.panes[pane.value].(explicitWindow := Some(size)));
      }
    case Exited(id) =>
  }

  ghost predicate Faithful(g: GateState, g': GateState, decisions: Decisions) {
    && Settled(g')
    && (forall id :: id in decisions && decisions[id] == Pause ==> !IsPaused(g, id) && IsPaused(g', id))
    && (forall id :: id in decisions && decisions[id] == Resume ==> IsPaused(g, id) && !IsPaused(g', id))
    && (forall id :: id !in decisions ==> IsPaused(g', id) == IsPaused(g, id))
  }

  lemma EvaluateKeeps(g: GateState, id: string, p: PaneFlow)
    requires Settled(g) && p.paused == IsPaused(g, id)
    ensures var (g', decisions) := EvaluateIn(g, id, p); Faithful(g, g', decisions)
  {
  }

  lemma DefaultWindowKeeps(g: GateState, size: nat)
    requires Settled(g)
    ensures var (g', decisions) := OnDefaultWindow(g, size); Faithful(g, g', decisions)
  {
  }

  /** Emitting never asks for a resume, an acknowledgement never asks for a pause. */
  lemma DirectionOfDecisions(g: GateState, id: string, data: string, bytes: nat)
    requires Settled(g)
    ensures Resume !in OnDataEmitted(g, id, data).1.Values
    ensures Pause !in OnAck(g, id, bytes).1.Values
  {
  }

  // ---------------------------------------------------------------- the gate as its history

  /** The gate after a run of operations, from a new one. */
  function GateAfter(ops: seq<GateOp>): GateState {
    if ops == [] then NewGate else Apply(GateAfter(ops[..|ops| - 1]), ops[|ops| - 1]).0
  }

  /** Whether the pane has sent anything since it last exited. */
  predicate Known(ops: seq<GateOp>, id: string) {
    if ops == [] then false
    else
      match ops[|ops| - 1]
      case Emitted(pane, _) => pane == id || Known(ops[..|ops| - 1], id)
      case Exited(pane) => pane != id && Known(ops[..|ops| - 1], id)
      case _ => Known(ops[..|ops| - 1], id)
  }

  /** What was emitted less what was acknowledged, never below zero. */
  function Balance(ops: seq<GateOp>, id: string): nat {
    if ops == [] then 0
    else
      var before := Balance(ops[..|ops| - 1], id);
      match ops[|ops| - 1]
      case Emitted(pane, data) => if pane == id then before + |data| else before
      case Acked(pane, bytes) => if pane != id then before else if bytes > before then 0 else before - bytes
      case Exited(pane) => if pane == id then 0 else before
      case Window(_, _) => before
  }

  /** The last size asked for the pane by name while it was known. */
  function OwnWindow(ops: seq<GateOp>, id: string): Option<nat> {
    if ops == [] then None
    else
      var front := ops[..|ops| - 1];
      match ops[|ops| - 1]
      case Window(size, pane) => if pane == Some(id) && Known(front, id) then Some(size) else OwnWindow(front, id)
      case Exited(pane) => if pane == id then None else OwnWindow(front, id)
      case _ => OwnWindow(front, id)
  }

  /** The last size asked for the connection. */
  function SharedWindow(ops: seq<GateOp>): nat {
    if ops == [] then DEFAULT_FLOW_WINDOW_BYTES
    else
      var last := ops[|ops| - 1];
      if last.Window? && last.pane.None? then last.size else SharedWindow(ops[..|ops| - 1])
  }

  function WindowAfter(ops: seq<GateOp>, id: string): nat {
    match OwnWindow(ops, id)
    case Some(size) => size
    case None => SharedWindow(ops)
  }

  /** Paused once the balance passed the window, until it is down to half of it. */
  predicate Stalled(ops: seq<GateOp>, id: string) {
    if ops == [] || !Known(ops, id) then false
    else if Stalled(ops[..|ops| - 1], id) then Balance(ops, id) > WindowAfter(ops, id) / 2
    else Balance(ops, id) > WindowAfter(ops, id)
  }

  function Unacked(g: GateState, id: string): nat {
    if id in g.panes then g.panes[id].unacked else 0
  }

  /** What the gate holds of one pane is what the history of operations says of it. */
  ghost predicate Tells(g: GateState, ops: seq<GateOp>, id: string) {
    && g.defaultWindow == SharedWindow(ops)
    && (id in g.panes <==> Known(ops, id))
    && Unacked(g, id) == Balance(ops, id)
    && IsPaused(g, id) == Stalled(ops, id)
    && (if id in g.panes then g.panes[id].explicitWindow == OwnWindow(ops, id)
        else OwnWindow(ops, id).None? && Balance(ops, id) == 0)
  }

  /**
   * For every run of emissions, acknowledgements, window frames and exits, and every pane: the gate's
   * outstanding count, window and paused flag are those of the pane's own history.
   */
  lemma {:induction false} GateIsItsHistory(ops: seq<GateOp>, id: string)
    ensures Settled(GateAfter(ops)) && Tells(GateAfter(ops), ops, id)
    decreases |ops|
  {
    if ops != [] {
      var front, op := ops[..|ops| - 1], ops[|ops| - 1];
      GateIsItsHistory(front, id);
      ApplyKeeps(GateAfter(front), op);
      OneMoreTells(GateAfter(front), front, op, id);
      assert front + [op] == ops;
    }
  }

  lemma OneMoreTells(g: GateState, front: seq<GateOp>, op: GateOp, id: string)
    requires Settled(g) && Tells(g, front, id)
    ensures Tells(Apply(g, op).0, front + [op], id)
  {
    match op
    case Emitted(pane, data) => EmittedTells(g, front, pane, data, id);
    case Acked(pane, bytes) => AckedTells(g, front, pane, bytes, id);
    case Window(size, pane) =>
      if pane.Some? { OwnWindowTells(g, front, size, pane.value, id); } else { SharedWindowTells(g, front, size, id); }
    case Exited(pane) => ExitedTells(g, front, pane, id);
  }

  lemma {:induction false} EmittedTells(g: GateState, front: seq<GateOp>, pane: string, data: string, id: string)
    requires Settled(g) && Tells(g, front, id)
    ensures Tells(OnDataEmitted(g, pane, data).0, front + [Emitted(pane, data)], id)
  {
    assert (front + [Emitted(pane, data)])[..|front|] == front;
  }

  lemma {:induction false} AckedTells(g: GateState, front: seq<GateOp>, pane: string, bytes: nat, id: string)
    requires Settled(g) && Tells(g, front, id)
    ensures Tells(OnAck(g, pane, bytes).0, front + [Acked(pane, bytes)], id)
  {
    assert (front + [Acked(pane, bytes)])[..|front|] == front;
  }

  lemma {:induction false} OwnWindowTells(g: GateState, front: seq<GateOp>, size: nat, pane: string, id: string)
    requires Settled(g) && Tells(g, front, id)
    ensures Tells(OnPaneWindow(g, pane, size).0, front + [Window(size, Some(pane))], id)
  {
    assert (front + [Window(size, Some(pane))])[..|front|] == front;
  }

  lemma {:induction false} SharedWindowTells(g: GateState, front: seq<GateOp>, size: nat, id: string)
    requires Settled(g) && Tells(g, front, id)
    ensures Tells(OnDefaultWindow(g, size).0, front + [Window(size, None)], id)
  {
    assert (front + [Window(size, None)])[..|front|] == front;
  }

  lemma {:induction false} ExitedTells(g: GateState, front: seq<GateOp>, pane: string, id: string)
    requires Settled(g) && Tells(g, front, id)
    ensures Tells(Prune(g, pane), front + [Exited(pane)], id)
  {
    assert (front + [Exited(pane)])[..|front|] == front;
  }

  /** Acknowledging all that is outstanding resumes a paused pane, and nothing else happens. */
  lemma AckingAllResumes(g: GateState, id: string, bytes: nat)
    requires Settled(g) && IsPaused(g, id) && bytes >= Unacked(g, id)
    ensures var (g', decisions) := OnAck(g, id, bytes);
      decisions == map[id := Resume] && !IsPaused(g', id) && Unacked(g', id) == 0
  {
  }

  /** The actions one pane was given over a run, in order. */
  function ActionsFor(g: GateState, ops: seq<GateOp>, id: string): seq<Action>
    decreases |ops|
  {
    if ops == [] then []
    else
      var (g', decisions) := Apply(g, ops[0]);
      (if id in decisions then [decisions[id]] else []) + ActionsFor(g', ops[1..], id)
  }

  ghost predicate Alternates(actions: seq<Action>, first: Action) {
    forall k :: 0 <= k < |actions| ==>
      actions[k] == if k % 2 == 0 then first else if first.Pause? then Resume else Pause
  }

  lemma AlternatesCons(first: Action, rest: seq<Action>)
    requires Alternates(rest, if first.Pause? then Resume else Pause)
    ensures Alternates([first] + rest, first)
  {
    var all := [first] + rest;
    forall k | 0 < k < |all| ensures all[k] == rest[k - 1] && (k % 2 == 0 <==> (k - 1) % 2 != 0) {}
  }

  /** Over any run in which the pane lives, its handle is paused and resumed strictly in turn. */
  lemma {:induction false} DecisionsAlternate(g: GateState, ops: seq<GateOp>, id: string)
    requires Settled(g)
    requires Exited(id) !in ops
    ensures Alternates(ActionsFor(g, ops, id), if IsPaused(g, id) then Resume else Pause)
    decreases |ops|
  {
    if ops != [] {
      var (g', decisions) := Apply(g, ops[0]);
      ApplyKeeps(g, ops[0]);
      DecisionsAlternate(g', ops[1..], id);
      assert ops[0] in ops;
      if id in decisions {
        AlternatesCons(decisions[id], ActionsFor(g', ops[1..], id));
      }
    }
  }
}
