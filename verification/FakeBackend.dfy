/**
 * The deterministic pseudo-shell: lines are cut out of the input, each line is a command that emits
 * chunks and may exit, and a paused handle queues instead of delivering.
 */
module FakeBackend {
  import opened Chunks

  // ---------------------------------------------------------------- lines

  predicate IsEnd(c: char) {
    c == '\n' || c == '\r'
  }

  /** The first line terminator, or the length of the text. */
  function FirstEnd(s: string): (n: nat)
    ensures n <= |s|
    ensures forall i :: 0 <= i < n ==> !IsEnd(s[i])
    ensures n < |s| ==> IsEnd(s[n])
  {
    if s == "" || IsEnd(s[0]) then 0 else 1 + FirstEnd(s[1..])
  }

  /** A terminator is one character, except that CR LF seen together is one terminator of two. */
  function AfterEnd(s: string, n: nat): (after: nat)
    requires n < |s|
    ensures n < after <= |s|
  {
    if s[n] == '\r' && n + 1 < |s| && s[n + 1] == '\n' then n + 2 else n + 1
  }

  /** All complete lines of a buffer and the unfinished rest. */
  function Lines(s: string): (r: (seq<string>, string))
    ensures FirstEnd(r.1) == |r.1|
    decreases |s|
  {
    var n := FirstEnd(s);
    if n == |s| then ([], s)
    else
      var (more, rest) := Lines(s[AfterEnd(s, n)..]);
      ([s[..n]] + more, rest)
  }

  /** The boundary between two writes falls inside a CR LF. */
  predicate SplitsCrLf(a: string, b: string) {
    a != "" && a[|a| - 1] == '\r' && b != "" && b[0] == '\n'
  }

  lemma {:induction false} FirstEndOfConcat(a: string, b: string)
    ensures FirstEnd(a) < |a| ==> FirstEnd(a + b) == FirstEnd(a)
  {
    if a != "" && !IsEnd(a[0]) {
      FirstEndOfConcat(a[1..], b);
      assert (a + b)[1..] == a[1..] + b;
    }
  }

  /** Cutting off the first line of a text does not depend on what follows. */
  lemma FirstLineOfConcat(a: string, b: string)
    requires FirstEnd(a) < |a| && (SplitsCrLf(a, b) ==> FirstEnd(a) < |a| - 1)
    ensures var n := FirstEnd(a); var k := AfterEnd(a, n);
      && Lines(a) == ([a[..n]] + Lines(a[k..]).0, Lines(a[k..]).1)
      && Lines(a + b) == ([a[..n]] + Lines(a[k..] + b).0, Lines(a[k..] + b).1)
  {
    FirstLineStays(a, b);
  }

  /** Reading on after a first write: the lines of the whole are those of the parts. */
  lemma {:induction false} LinesOfConcat(a: string, b: string)
    requires !SplitsCrLf(a, b)
    ensures Lines(a + b) == (Lines(a).0 + Lines(Lines(a).1 + b).0, Lines(Lines(a).1 + b).1)
    decreases |a|
  {
    var n := FirstEnd(a);
    if n < |a| {
      FirstLineOfConcat(a, b);
      var k := AfterEnd(a, n);
      LinesOfConcat(a[k..], b);
      AppendAssociates([a[..n]], Lines(a[k..]).0, Lines(Lines(a).1 + b).0);
    } else {
      assert [] + Lines(a + b).0 == Lines(a + b).0;
    }
  }

  lemma AppendAssociates(a: seq<string>, b: seq<string>, c: seq<string>)
    ensures a + (b + c) == (a + b) + c
  {
  }

  /** A CR LF cut in two ends two lines instead of one. */
  lemma {:induction false} SplitCrLfAddsALine(a: string, b: string)
    requires SplitsCrLf(a, b)
    ensures Lines(a).1 == "" && |Lines(a).0| + |Lines(b).0| == |Lines(a + b).0| + 1
    decreases |a|
  {
    if FirstEnd(a) == |a| - 1 {
      SplitLastTerminator(a, b);
    } else {
      FirstLineStays(a, b);
      FirstLine(a);
      FirstLine(a + b);
      SplitCrLfAddsALine(a[AfterEnd(a, FirstEnd(a))..], b);
    }
  }

  lemma SplitLastTerminator(a: string, b: string)
    requires SplitsCrLf(a, b) && FirstEnd(a) == |a| - 1
    ensures Lines(a).1 == "" && |Lines(a).0| + |Lines(b).0| == |Lines(a + b).0| + 1
  {
    SplitAtTheEnd(a, b);
    LastLine(a);
    FirstLine(a + b);
    FirstLine(b);
    assert FirstEnd(b) == 0 && b[AfterEnd(b, 0)..] == b[1..];
  }

  lemma FirstLine(s: string)
    requires FirstEnd(s) < |s|
    ensures var n := FirstEnd(s); var rest := Lines(s[AfterEnd(s, n)..]);
      |Lines(s).0| == 1 + |rest.0| && Lines(s).1 == rest.1
  {
  }

  lemma LastLine(s: string)
    requires FirstEnd(s) == |s| - 1
    ensures |Lines(s).0| == 1 && Lines(s).1 == ""
  {
    assert s[AfterEnd(s, |s| - 1)..] == "";
  }

  /** How the input is cut into writes does not matter, exactly when no cut splits a CR LF. */
  lemma ChunkingIsInvisibleIff(a: string, b: string)
    ensures (Lines(a + b) == (Lines(a).0 + Lines(Lines(a).1 + b).0, Lines(Lines(a).1 + b).1)) <==> !SplitsCrLf(a, b)
  {
    if SplitsCrLf(a, b) {
      SplitCrLfAddsALine(a, b);
      assert "" + b == b;
    } else {
      LinesOfConcat(a, b);
    }
  }

  // ---------------------------------------------------------------- commands

  const MARKER_A: string := "\U{1b}]133;A\U{07}"
  const MARKER_C: string := "\U{1b}]133;C\U{07}"
  const PROMPT: string := "fake$ "
  const FLOOD_FILLER: string := "0123456789abcdefghijklmnopqrstuvwxyz"
  const FLOOD_MAX_TOTAL_UNITS: nat := 16_777_216

  /**
   * What the shell asks of its host language and of its spawn: the resolved directory, decimal text,
   * and the reading of an integer argument (`None`: not an integer).
   */
  datatype Host = Host(cwd: string, decimal: int -> string, integer: string -> Option<int>)

  predicate StartsWith(s: string, prefix: string) {
    prefix <= s
  }

  function MarkerD(host: Host, code: int): string {
    "\U{1b}]133;D;" + host.decimal(code) + "\U{07}"
  }

  function Closing(host: Host, code: int): seq<string> {
    [MarkerD(host, code), MARKER_A, PROMPT]
  }

  function Words(s: string): seq<string>
    decreases |s|
  {
    if s == "" then []
    else if s[0] == ' ' then Words(s[1..])
    else
      var n := WordEnd(s);
      [s[..n]] + Words(s[n..])
  }

  function WordEnd(s: string): (n: nat)
    requires s != "" && s[0] != ' '
    ensures 0 < n <= |s|
  {
    if |s| == 1 || s[1] == ' ' then 1 else 1 + WordEnd(s[1..])
  }

  function FloodChunk(units: nat): (chunk: string)
    ensures |chunk| == units
  {
    seq(units, i requires 0 <= i => FLOOD_FILLER[i % |FLOOD_FILLER|])
  }

  /** `flood <chunks> <chunkBytes>`, when both are positive integers within the total bound. */
  function FloodArgs(host: Host, cmd: string): Option<(nat, nat)> {
    var parts := Words(cmd);
    if |parts| != 3 then None
    else
      match (host.integer(parts[1]), host.integer(parts[2]))
      case (Some(chunks), Some(bytes)) =>
        if chunks > 0 && bytes > 0 && chunks * bytes <= FLOOD_MAX_TOTAL_UNITS then Some((chunks, bytes)) else None
      case _ => None
  }

  function FloodOutput(host: Host, cmd: string): seq<string> {
    match FloodArgs(host, cmd)
    case None =>
      ["fake: flood expects \"flood <chunks> <chunkBytes>\" with positive integers and chunks*chunkBytes <= "
       + host.decimal(FLOOD_MAX_TOTAL_UNITS) + ", got \"" + cmd + "\"\r\n"] + Closing(host, 1)
    case Some(args) => seq(args.0, i => FloodChunk(args.1)) + Closing(host, 0)
  }

  function ExitCode(host: Host, cmd: string): int {
    if cmd == "exit" then 0
    else
      match host.integer(cmd[if 5 <= |cmd| then 5 else |cmd|..])
      case Some(code) => if code >= 0 then code else 1
      case None => 1
  }

  /** What one command emits, in order, and whether the shell exits after it. */
  function Script(host: Host, cols: nat, rows: nat, cmd: string): (seq<string>, Option<int>) {
    if cmd == "echo" then ([MARKER_C, "\r\n"] + Closing(host, 0), None)
    else if StartsWith(cmd, "echo ") then ([MARKER_C, cmd[5..] + "\r\n"] + Closing(host, 0), None)
    else if StartsWith(cmd, "cwd ") then ([MARKER_C, "\U{1b}]9;9;" + cmd[4..] + "\U{07}"] + Closing(host, 0), None)
    else if cmd == "pwd" then ([MARKER_C, host.cwd + "\r\n"] + Closing(host, 0), None)
    else if cmd == "size" then
      ([MARKER_C, "size=" + host.decimal(cols) + "x" + host.decimal(rows) + "\r\n"] + Closing(host, 0), None)
    else if cmd == "exit" || StartsWith(cmd, "exit ") then
      ([MARKER_C, MarkerD(host, ExitCode(host, cmd))], Some(ExitCode(host, cmd)))
    else if cmd == "flood" || StartsWith(cmd, "flood ") then ([MARKER_C] + FloodOutput(host, cmd), None)
    else ([MARKER_C, "fake: unknown command \"" + cmd + "\"\r\n"] + Closing(host, 127), None)
  }

  // ---------------------------------------------------------------- the handle

  /**
   * A handle. `emitted`, `delivered` and `exits` are logs: what the shell produced, what the data
   * callback got, what the exit callback got. `reactions` scripts the consumer: true means that the
   * callback of the next delivery pauses the handle. `killed` records the owner's kill.
   */
  datatype Shell = Shell(host: Host, cols: nat, rows: nat, line: string, dead: bool, paused: bool, closing: bool,
                         hasDataCb: bool, hasExitCb: bool, pendingData: seq<string>, pendingExit: Option<int>,
                         deferredExit: Option<int>, emitted: seq<string>, delivered: seq<string>, exits: seq<int>,
                         reactions: seq<bool>, killed: bool)

  function Deliver(s: Shell, data: string): Shell {
    s.(delivered := s.delivered + [data],
       paused := s.paused || (s.reactions != [] && s.reactions[0]),
       reactions := if s.reactions == [] then [] else s.reactions[1..])
  }

  function Emit(s: Shell, data: string): Shell {
    if s.dead then s
    else
      var s1 := s.(emitted := s.emitted + [data]);
      if s.paused || !s.hasDataCb then s1.(pendingData := s.pendingData + [data]) else Deliver(s1, data)
  }

  function EmitAll(s: Shell, chunks: seq<string>): Shell
    decreases |chunks|
  {
    if chunks == [] then s else EmitAll(Emit(s, chunks[0]), chunks[1..])
  }

  function FlushPending(s: Shell): Shell
    decreases |s.pendingData|
  {
    if !s.hasDataCb || s.pendingData == [] || s.paused || s.dead then s
    else FlushPending(Deliver(s.(pendingData := s.pendingData[1..]), s.pendingData[0]))
  }

  function Exit(s: Shell, code: int): Shell {
    if s.dead then s
    else if s.paused then s.(deferredExit := Some(code), closing := true)
    else if s.hasExitCb then s.(dead := true, exits := s.exits + [code])
    else s.(dead := true, pendingExit := Some(code))
  }

  function RunCommand(s: Shell, cmd: string): Shell {
    var (chunks, code) := Script(s.host, s.cols, s.rows, cmd);
    var s1 := EmitAll(s, chunks);
    if code.Some? then Exit(s1, code.value) else s1
  }

  /** Commands run until the shell is gone; what is left of the input stays in the line buffer. */
  function RunLines(s: Shell, input: string): Shell
    decreases |input|
  {
    var n := FirstEnd(input);
    if n == |input| || s.dead || s.closing then s.(line := input)
    else RunLines(RunCommand(s, input[..n]), input[AfterEnd(input, n)..])
  }

  datatype Op =
    | OnData
    | OnExit
    | Write(data: string)
    | Resize(cols: nat, rows: nat)
    | Pause
    | Resume
    | Kill

  function FireDeferredExit(s: Shell): Shell {
    if s.deferredExit.Some? && !s.paused && s.pendingData == [] then
      Exit(s.(deferredExit := None), s.deferredExit.value)
    else s
  }

  function ResumeShell(s: Shell): Shell {
    if !s.paused then s else FireDeferredExit(FlushPending(s.(paused := false)))
  }

  function Apply(s: Shell, op: Op): Shell {
    match op
    case OnData => var s1 := s.(hasDataCb := true); if s.paused then s1 else FlushPending(s1)
    case OnExit =>
      var s1 := s.(hasExitCb := true);
      if s.pendingExit.Some? then s1.(pendingExit := None, exits := s.exits + [s.pendingExit.value]) else s1
    case Write(data) => if s.dead || s.closing then s else RunLines(s, s.line + data)
    case Resize(cols, rows) => if s.dead then s else s.(cols := cols, rows := rows)
    case Pause => s.(paused := true)
    case Resume => ResumeShell(s)
    case Kill => Exit(s.(paused := false, deferredExit := None, killed := s.killed || !s.dead), 0)
  }

  function Run(s: Shell, ops: seq<Op>): Shell
    decreases |ops|
  {
    if ops == [] then s else Run(Apply(s, ops[0]), ops[1..])
  }

  function Spawned(host: Host, cols: nat, rows: nat, reactions: seq<bool>): Shell {
    var bare := Shell(host, cols, rows, "", false, false, false, false, false, [], None, None, [], [], [], reactions,
                      false);
    EmitAll(bare, [MARKER_A, PROMPT])
  }

  // ---------------------------------------------------------------- conservation and exit-last

  /** Nothing is lost, doubled or reordered, and nothing is queued without a reason. */
  ghost predicate QueueOk(s: Shell) {
    && s.delivered + s.pendingData == s.emitted
    && (s.hasDataCb && !s.paused && !s.dead ==> s.pendingData == [])
  }

  /** A scripted exit waits for all output, and is reported once. */
  ghost predicate ShellOk(s: Shell) {
    && QueueOk(s)
    && (s.deferredExit.Some? ==> s.closing && !s.dead && (s.hasDataCb ==> s.paused))
    && (s.closing && !s.dead && !s.killed ==> s.deferredExit.Some?)
    && |s.exits| + (if s.pendingExit.Some? then 1 else 0) == (if s.dead then 1 else 0)
    && (s.killed ==> s.dead)
    && (s.hasExitCb ==> s.pendingExit.None?)
    && (s.hasDataCb && s.hasExitCb && s.exits != [] && !s.killed ==> s.delivered == s.emitted)
  }

  predicate Wired(s: Shell) {
    s.hasDataCb && s.hasExitCb
  }

  lemma EmitKeeps(s: Shell, data: string)
    requires QueueOk(s)
    ensures QueueOk(Emit(s, data))
  {
    if !s.dead {
      assert (s.delivered + s.pendingData) + [data] == s.delivered + (s.pendingData + [data]);
    }
  }

  lemma HeadFirst(front: seq<string>, chunks: seq<string>)
    requires chunks != []
    ensures front + chunks == (front + [chunks[0]]) + chunks[1..]
  {
  }

  lemma {:induction false} EmitAllKeeps(s: Shell, chunks: seq<string>)
    requires QueueOk(s)
    ensures QueueOk(EmitAll(s, chunks))
    ensures var t := EmitAll(s, chunks);
      && t == s.(emitted := t.emitted, delivered := t.delivered, pendingData := t.pendingData,
                 reactions := t.reactions, paused := t.paused)
      && t.emitted == (if s.dead then s.emitted else s.emitted + chunks)
      && (s.dead ==> t == s)
      && (!s.hasDataCb && !s.dead ==> |t.pendingData| >= |chunks|)
    decreases |chunks|
  {
    if chunks != [] {
      EmitKeeps(s, chunks[0]);
      EmitAllKeeps(Emit(s, chunks[0]), chunks[1..]);
      HeadFirst(s.emitted, chunks);
      if !s.hasDataCb && !s.dead { QueueGrows(Emit(s, chunks[0]), chunks[1..]); }
    }
  }

  /** Without a reader everything emitted is queued. */
  lemma {:induction false} QueueGrows(s: Shell, chunks: seq<string>)
    requires !s.hasDataCb && !s.dead
    ensures EmitAll(s, chunks).pendingData == s.pendingData + chunks
    decreases |chunks|
  {
    if chunks != [] {
      QueueGrows(Emit(s, chunks[0]), chunks[1..]);
      HeadFirst(s.pendingData, chunks);
    }
  }

  lemma {:induction false} FlushKeeps(s: Shell)
    requires s.delivered + s.pendingData == s.emitted
    ensures var t := FlushPending(s);
      && t.delivered + t.pendingData == t.emitted
      && t == s.(delivered := t.delivered, pendingData := t.pendingData, reactions := t.reactions, paused := t.paused)
      && (s.hasDataCb && !t.paused && !s.dead ==> t.pendingData == [])
    decreases |s.pendingData|
  {
    if s.hasDataCb && s.pendingData != [] && !s.paused && !s.dead {
      var s1 := Deliver(s.(pendingData := s.pendingData[1..]), s.pendingData[0]);
      assert s1.delivered + s1.pendingData == s.delivered + s.pendingData;
      FlushKeeps(s1);
    }
  }

  lemma RunCommandKeeps(s: Shell, cmd: string)
    requires ShellOk(s) && Wired(s) && !s.dead && !s.closing
    ensures ShellOk(RunCommand(s, cmd)) && Wired(RunCommand(s, cmd))
  {
    EmitAllKeeps(s, Script(s.host, s.cols, s.rows, cmd).0);
  }

  lemma {:induction false} RunLinesKeeps(s: Shell, input: string)
    requires ShellOk(s) && Wired(s)
    ensures ShellOk(RunLines(s, input)) && Wired(RunLines(s, input))
    decreases |input|
  {
    var n := FirstEnd(input);
    if n < |input| && !s.dead && !s.closing {
      RunCommandKeeps(s, input[..n]);
      RunLinesKeeps(RunCommand(s, input[..n]), input[AfterEnd(input, n)..]);
    }
  }

  lemma ApplyKeeps(s: Shell, op: Op)
    requires ShellOk(s) && Wired(s)
    ensures ShellOk(Apply(s, op)) && Wired(Apply(s, op))
  {
    match op
    case OnData => FlushKeeps(s.(hasDataCb := true));
    case Write(data) => if !s.dead && !s.closing { RunLinesKeeps(s, s.line + data); }
    case Resume => FlushKeeps(s.(paused := false));
    case _ =>
  }

  lemma {:induction false} RunKeeps(s: Shell, ops: seq<Op>)
    requires ShellOk(s) && Wired(s)
    ensures ShellOk(Run(s, ops)) && Wired(Run(s, ops))
    decreases |ops|
  {
    if ops != [] {
      ApplyKeeps(s, ops[0]);
      RunKeeps(Apply(s, ops[0]), ops[1..]);
    }
  }

  /** The handle once the store has attached its callbacks: exit first, then data. */
  function Attached(host: Host, cols: nat, rows: nat, reactions: seq<bool>): Shell {
    Apply(Apply(Spawned(host, cols, rows, reactions), OnExit), OnData)
  }

  lemma AttachedOk(host: Host, cols: nat, rows: nat, reactions: seq<bool>)
    ensures ShellOk(Attached(host, cols, rows, reactions)) && Wired(Attached(host, cols, rows, reactions))
    ensures !Attached(host, cols, rows, reactions).dead && !Attached(host, cols, rows, reactions).killed
  {
    var bare := Shell(host, cols, rows, "", false, false, false, false, false, [], None, None, [], [], [],
                      reactions, false);
    EmitAllKeeps(bare, [MARKER_A, PROMPT]);
    FlushKeeps(Apply(Spawned(host, cols, rows, reactions), OnExit).(hasDataCb := true));
  }

  /**
   * Under any schedule of writes, pauses and resumes, with callbacks that pause again in the middle
   * of a flush: what was delivered followed by the queue is what was produced, in order; the exit is
   * reported at most once; and unless the owner killed the handle, not before everything was delivered.
   */
  lemma ConservationAndExitLast(host: Host, cols: nat, rows: nat, reactions: seq<bool>, ops: seq<Op>)
    ensures var s := Run(Attached(host, cols, rows, reactions), ops);
      && s.delivered + s.pendingData == s.emitted
      && |s.exits| <= 1
      && (s.exits != [] && !s.killed ==> s.pendingData == [])
      && (!s.paused && !s.dead ==> s.pendingData == [])
  {
    AttachedOk(host, cols, rows, reactions);
    RunKeeps(Attached(host, cols, rows, reactions), ops);
    var s := Run(Attached(host, cols, rows, reactions), ops);
    if s.exits != [] && !s.killed {
      assert |s.delivered| + |s.pendingData| == |s.emitted|;
    }
  }

  /** The owner's kill reports its exit at once, paused or not. */
  lemma KillIsImmediate(s: Shell)
    requires ShellOk(s) && Wired(s)
    ensures Apply(s, Kill).exits == if s.dead then s.exits else [0]
  {
  }

  // ---------------------------------------------------------------- pausing

  lemma {:induction false} EmitAllTouches(s: Shell, chunks: seq<string>)
    ensures var t := EmitAll(s, chunks);
      && t == s.(emitted := t.emitted, delivered := t.delivered, pendingData := t.pendingData,
                 reactions := t.reactions, paused := t.paused)
      && (s.paused ==> t.paused && t.delivered == s.delivered)
    decreases |chunks|
  {
    if chunks != [] { EmitAllTouches(Emit(s, chunks[0]), chunks[1..]); }
  }

  /** A paused handle that has told its exit, or has none to tell. */
  predicate Muted(s: Shell) {
    s.paused && s.pendingExit.None?
  }

  lemma {:induction false} MutedLinesAreQuiet(s: Shell, input: string)
    requires Muted(s)
    ensures var t := RunLines(s, input); Muted(t) && t.delivered == s.delivered && t.exits == s.exits
    decreases |input|
  {
    var n := FirstEnd(input);
    if n < |input| && !s.dead && !s.closing {
      EmitAllTouches(s, Script(s.host, s.cols, s.rows, input[..n]).0);
      MutedLinesAreQuiet(RunCommand(s, input[..n]), input[AfterEnd(input, n)..]);
    }
  }

  lemma {:induction false} MutedStaysQuiet(s: Shell, ops: seq<Op>)
    requires Muted(s) && Resume !in ops && Kill !in ops
    ensures var t := Run(s, ops); Muted(t) && t.delivered == s.delivered && t.exits == s.exits
    decreases |ops|
  {
    if ops != [] {
      if ops[0].Write? && !s.dead && !s.closing { MutedLinesAreQuiet(s, s.line + ops[0].data); }
      assert ops[0] in ops && forall op :: op in ops[1..] ==> op in ops;
      MutedStaysQuiet(Apply(s, ops[0]), ops[1..]);
    }
  }

  /** From a pause to the next resume or kill nothing is delivered and no exit is reported, whatever is typed. */
  lemma PausedDeliversNothing(s: Shell, ops: seq<Op>)
    requires s.pendingExit.None? && Resume !in ops && Kill !in ops
    ensures var t := Run(Apply(s, Pause), ops);
      t.paused && t.delivered == s.delivered && t.exits == s.exits
  {
    MutedStaysQuiet(Apply(s, Pause), ops);
  }

  // ---------------------------------------------------------------- the exit is told, early or late

  /** One exit per death, told already or kept for the callback that comes later. */
  ghost predicate ExitKept(s: Shell) {
    && |s.exits| + (if s.pendingExit.Some? then 1 else 0) == (if s.dead then 1 else 0)
    && (s.hasExitCb ==> s.pendingExit.None?)
  }

  lemma {:induction false} LinesKeepTheExit(s: Shell, input: string)
    requires ExitKept(s)
    ensures ExitKept(RunLines(s, input))
    decreases |input|
  {
    var n := FirstEnd(input);
    if n < |input| && !s.dead && !s.closing {
      EmitAllTouches(s, Script(s.host, s.cols, s.rows, input[..n]).0);
      LinesKeepTheExit(RunCommand(s, input[..n]), input[AfterEnd(input, n)..]);
    }
  }

  lemma {:induction false} FlushTouches(s: Shell)
    ensures var t := FlushPending(s);
      t == s.(delivered := t.delivered, pendingData := t.pendingData, reactions := t.reactions, paused := t.paused)
    decreases |s.pendingData|
  {
    if s.hasDataCb && s.pendingData != [] && !s.paused && !s.dead {
      FlushTouches(Deliver(s.(pendingData := s.pendingData[1..]), s.pendingData[0]));
    }
  }

  lemma {:induction false} ApplyKeepsTheExit(s: Shell, op: Op)
    requires ExitKept(s)
    ensures ExitKept(Apply(s, op))
  {
    match op
    case OnData => FlushTouches(s.(hasDataCb := true));
    case Write(data) => if !s.dead && !s.closing { LinesKeepTheExit(s, s.line + data); }
    case Resume => ResumeKeepsTheExit(s);
    case _ =>
  }

  lemma ResumeKeepsTheExit(s: Shell)
    requires ExitKept(s)
    ensures ExitKept(ResumeShell(s))
  {
    FlushTouches(s.(paused := false));
  }

  lemma {:induction false} RunKeepsTheExit(s: Shell, ops: seq<Op>)
    requires ExitKept(s)
    ensures ExitKept(Run(s, ops))
    decreases |ops|
  {
    if ops != [] {
      ApplyKeepsTheExit(s, ops[0]);
      RunKeepsTheExit(Apply(s, ops[0]), ops[1..]);
    }
  }

  /**
   * Whenever the callbacks are attached, if at all: once an exit callback is there, exactly one exit has
   * been reported if the shell is dead, and none if it is not.
   */
  lemma ExitIsToldOnce(host: Host, cols: nat, rows: nat, reactions: seq<bool>, ops: seq<Op>)
    ensures var s := Run(Spawned(host, cols, rows, reactions), ops);
      |s.exits| <= 1 && (s.hasExitCb ==> (|s.exits| == 1 <==> s.dead))
  {
    var bare := Shell(host, cols, rows, "", false, false, false, false, false, [], None, None, [], [], [],
                      reactions, false);
    EmitAllTouches(bare, [MARKER_A, PROMPT]);
    RunKeepsTheExit(Spawned(host, cols, rows, reactions), ops);
  }

  /** A shell that exits before anybody listens tells the same code to the callback that comes later. */
  lemma LateListenerHearsTheCode(s: Shell, code: int)
    requires !s.dead && !s.paused && s.pendingExit.None?
    ensures Apply(Exit(s, code), OnExit).exits == s.exits + [code]
  {
  }

  // ---------------------------------------------------------------- a reader that comes too late

  lemma {:induction false} DeadIsSilent(s: Shell, ops: seq<Op>)
    requires s.dead
    ensures Run(s, ops).delivered == s.delivered && Run(s, ops).emitted == s.emitted
    decreases |ops|
  {
    if ops != [] {
      if ops[0].Resume? && s.paused { FlushOfDead(s.(paused := false)); }
      if ops[0].OnData? { FlushOfDead(s.(hasDataCb := true)); }
      DeadIsSilent(Apply(s, ops[0]), ops[1..]);
    }
  }

  lemma FlushOfDead(s: Shell)
    requires s.dead
    ensures FlushPending(s) == s
  {
  }

  /** A command that ends the shell at once leaves output behind exactly if nobody reads it. */
  lemma ExitCommandAndReader(s: Shell, cmd: string)
    requires QueueOk(s) && !s.dead && RunCommand(s, cmd).dead
    ensures RunCommand(s, cmd).delivered == RunCommand(s, cmd).emitted <==> s.hasDataCb
  {
    var (chunks, code) := Script(s.host, s.cols, s.rows, cmd);
    EmitAllKeeps(s, chunks);
    var t := EmitAll(s, chunks);
    assert |chunks| >= 2;
    assert |t.delivered| + |t.pendingData| == |t.emitted|;
  }

  lemma {:induction false} ExitAndReader(s: Shell, input: string)
    requires QueueOk(s) && !s.dead && !s.closing && RunLines(s, input).dead
    ensures RunLines(s, input).delivered == RunLines(s, input).emitted <==> s.hasDataCb
    decreases |input|
  {
    var n := FirstEnd(input);
    if n < |input| {
      var s1 := RunCommand(s, input[..n]);
      EmitAllKeeps(s, Script(s.host, s.cols, s.rows, input[..n]).0);
      if s1.dead || s1.closing {
        if s1.dead { ExitCommandAndReader(s, input[..n]); }
      } else {
        ExitAndReader(s1, input[AfterEnd(input, n)..]);
      }
    }
  }

  /**
   * Output emitted before the data callback was attached is replayed to it, unless the shell has
   * already exited: when a write makes the shell exit, all of its output is delivered sooner or
   * later if and only if the data callback was attached before that write.
   */
  lemma OutputSurvivesExitIffReadInTime(s: Shell, data: string)
    requires QueueOk(s) && !s.dead && !s.closing && Apply(s, Write(data)).dead
    ensures (exists ops :: FullyDelivered(Apply(s, Write(data)), ops)) <==> s.hasDataCb
  {
    var t := Apply(s, Write(data));
    ExitAndReader(s, s.line + data);
    forall ops ensures FullyDelivered(t, ops) == FullyDelivered(t, []) {
      DeadIsSilent(t, ops);
      DeadIsSilent(t, []);
    }
    assert FullyDelivered(t, []) <==> s.hasDataCb;
  }

  /** The promise fails on the shortest script: an exit typed before anybody reads. */
  lemma UnreadExitLosesOutput(host: Host, cols: nat, rows: nat)
    ensures var t := Apply(Spawned(host, cols, rows, []), Write("exit\n"));
      t.dead && forall ops :: !FullyDelivered(t, ops)
  {
    var bare := Shell(host, cols, rows, "", false, false, false, false, false, [], None, None, [], [], [], [], false);
    var s := Spawned(host, cols, rows, []);
    EmitAllKeeps(bare, [MARKER_A, PROMPT]);
    EmitAllFlowing(bare, [MARKER_A, PROMPT]);
    var input := "exit\n";
    FirstEndOfExit();
    assert s.line + input == input;
    ExitRunsAtOnce(s);
    assert AfterEnd(input, 4) == |input|;
    OutputSurvivesExitIffReadInTime(s, input);
  }

  lemma ExitRunsAtOnce(s: Shell)
    requires QueueOk(s) && Flowing(s) && !Gone(s)
    ensures RunCommand(s, "exit").dead
  {
    EmitAllKeeps(s, Script(s.host, s.cols, s.rows, "exit").0);
    EmitAllFlowing(s, Script(s.host, s.cols, s.rows, "exit").0);
  }

  lemma FirstEndOfExit()
    ensures FirstEnd("exit\n") == 4 && "exit\n"[..4] == "exit"
  {
    var input := "exit\n";
    assert input[1..] == "xit\n" && input[1..][1..] == "it\n" && input[1..][1..][1..] == "t\n";
    assert input[1..][1..][1..][1..] == "\n";
  }

  ghost predicate FullyDelivered(s: Shell, ops: seq<Op>) {
    Run(s, ops).delivered == Run(s, ops).emitted
  }

  // ---------------------------------------------------------------- pauses change nothing but the moment

  predicate Gone(s: Shell) {
    s.dead || s.closing
  }

  /** Two shells that have produced the same and will produce the same. */
  ghost predicate Alike(s: Shell, t: Shell) {
    && s.host == t.host && s.emitted == t.emitted && Gone(s) == Gone(t)
    && (!Gone(s) ==> s.line == t.line && s.cols == t.cols && s.rows == t.rows)
    && !s.killed && !t.killed
    && (s.dead && t.dead ==> s.exits == t.exits)
    && (s.deferredExit.Some? && t.dead ==> t.exits == [s.deferredExit.value])
  }

  /** The never-paused shell used as the yardstick. */
  predicate Flowing(t: Shell) {
    !t.paused && t.reactions == [] && t.deferredExit.None? && (t.closing ==> t.dead)
  }

  lemma {:induction false} EmitAllFlowing(t: Shell, chunks: seq<string>)
    requires Flowing(t)
    ensures Flowing(EmitAll(t, chunks))
    decreases |chunks|
  {
    if chunks != [] { EmitAllFlowing(Emit(t, chunks[0]), chunks[1..]); }
  }

  lemma RunCommandAlike(s: Shell, t: Shell, cmd: string)
    requires ShellOk(s) && Wired(s) && ShellOk(t) && Wired(t) && Alike(s, t) && Flowing(t) && !Gone(s)
    ensures Alike(RunCommand(s, cmd), RunCommand(t, cmd)) && Flowing(RunCommand(t, cmd))
  {
    var chunks := Script(s.host, s.cols, s.rows, cmd).0;
    EmitAllKeeps(s, chunks);
    EmitAllKeeps(t, chunks);
    EmitAllFlowing(t, chunks);
  }

  lemma {:induction false} RunLinesAlike(s: Shell, t: Shell, input: string)
    requires ShellOk(s) && Wired(s) && ShellOk(t) && Wired(t) && Alike(s, t) && Flowing(t)
    ensures Alike(RunLines(s, input), RunLines(t, input)) && Flowing(RunLines(t, input))
    decreases |input|
  {
    var n := FirstEnd(input);
    if n < |input| && !Gone(s) {
      RunCommandAlike(s, t, input[..n]);
      RunCommandKeeps(s, input[..n]);
      RunCommandKeeps(t, input[..n]);
      RunLinesAlike(RunCommand(s, input[..n]), RunCommand(t, input[..n]), input[AfterEnd(input, n)..]);
    }
  }

  /** The input of a run: what was typed and how the terminal was sized. */
  function Typing(ops: seq<Op>): seq<Op> {
    if ops == [] then []
    else (if ops[0].Write? || ops[0].Resize? then [ops[0]] else []) + Typing(ops[1..])
  }

  lemma TypingStep(s: Shell, t: Shell, op: Op)
    requires ShellOk(s) && Wired(s) && ShellOk(t) && Wired(t) && Alike(s, t) && Flowing(t) && !op.Kill?
    ensures Alike(Apply(s, op), if op.Write? || op.Resize? then Apply(t, op) else t)
    ensures op.Write? || op.Resize? ==> Flowing(Apply(t, op))
  {
    match op
    case Write(data) => if !Gone(s) { RunLinesAlike(s, t, s.line + data); }
    case Resume => if s.paused { FlushKeeps(s.(paused := false)); }
    case OnData => FlushKeeps(s.(hasDataCb := true));
    case _ =>
  }

  lemma {:induction false} RunAlike(s: Shell, t: Shell, ops: seq<Op>)
    requires ShellOk(s) && Wired(s) && ShellOk(t) && Wired(t) && Alike(s, t) && Flowing(t) && Kill !in ops
    ensures Alike(Run(s, ops), Run(t, Typing(ops))) && Flowing(Run(t, Typing(ops)))
    decreases |ops|
  {
    if ops != [] {
      assert ops[0] in ops;
      TypingStep(s, t, ops[0]);
      ApplyKeeps(s, ops[0]);
      ApplyKeeps(t, ops[0]);
      var t1 := if ops[0].Write? || ops[0].Resize? then Apply(t, ops[0]) else t;
      RunAlike(Apply(s, ops[0]), t1, ops[1..]);
      if ops[0].Write? || ops[0].Resize? {
        assert Typing(ops)[1..] == Typing(ops[1..]);
      } else {
        assert Typing(ops) == Typing(ops[1..]);
      }
    }
  }

  /**
   * Pausing decides when, never what: under any schedule of pauses, resumes and re-pausing
   * callbacks the shell produces what it would have produced unpaused, and whenever it is left
   * flowing its consumer has received exactly the data and the exit of the unpaused run.
   */
  lemma PausesAreInvisible(host: Host, cols: nat, rows: nat, reactions: seq<bool>, ops: seq<Op>)
    requires Kill !in ops
    ensures var s := Run(Attached(host, cols, rows, reactions), ops);
      var free := Run(Attached(host, cols, rows, []), Typing(ops));
      && s.delivered + s.pendingData == free.delivered
      && (!s.paused ==> s.delivered == free.delivered && s.exits == free.exits)
  {
    var s0, t0 := Attached(host, cols, rows, reactions), Attached(host, cols, rows, []);
    AttachedOk(host, cols, rows, reactions);
    AttachedOk(host, cols, rows, []);
    AttachedAlike(host, cols, rows, reactions);
    RunAlike(s0, t0, ops);
    RunKeeps(s0, ops);
    RunKeeps(t0, Typing(ops));
    var s, free := Run(s0, ops), Run(t0, Typing(ops));
    assert free.delivered == free.emitted by {
      if free.dead { assert free.exits != []; } else { assert free.delivered + [] == free.delivered; }
    }
    if !s.paused {
      if s.dead { assert s.exits != []; } else { assert s.delivered + [] == s.delivered; }
    }
  }

  lemma AttachedAlike(host: Host, cols: nat, rows: nat, reactions: seq<bool>)
    ensures Alike(Attached(host, cols, rows, reactions), Attached(host, cols, rows, []))
    ensures Flowing(Attached(host, cols, rows, []))
  {
    var bare := Shell(host, cols, rows, "", false, false, false, false, false, [], None, None, [], [], [],
                      reactions, false);
    EmitAllKeeps(bare, [MARKER_A, PROMPT]);
    EmitAllKeeps(bare.(reactions := []), [MARKER_A, PROMPT]);
    EmitAllFlowing(bare.(reactions := []), [MARKER_A, PROMPT]);
    FlushKeeps(Apply(Spawned(host, cols, rows, reactions), OnExit).(hasDataCb := true));
    FlushKeeps(Apply(Spawned(host, cols, rows, []), OnExit).(hasDataCb := true));
    FlushFlowing(Apply(Spawned(host, cols, rows, []), OnExit).(hasDataCb := true));
  }

  lemma {:induction false} FlushFlowing(t: Shell)
    requires Flowing(t)
    ensures Flowing(FlushPending(t))
    decreases |t.pendingData|
  {
    if t.hasDataCb && t.pendingData != [] && !t.dead {
      FlushFlowing(Deliver(t.(pendingData := t.pendingData[1..]), t.pendingData[0]));
    }
  }

  // ---------------------------------------------------------------- chunking, for the whole shell

  lemma RunLinesForgetsTheLine(s: Shell, old_: string, input: string)
    ensures RunLines(s.(line := old_), input) == RunLines(s, input)
    decreases |input|
  {
    var n := FirstEnd(input);
    if n < |input| && !Gone(s) {
      RunCommandForgetsTheLine(s, old_, input[..n]);
      RunLinesForgetsTheLine(RunCommand(s, input[..n]), old_, input[AfterEnd(input, n)..]);
    }
  }

  lemma {:induction false} EmitAllForgetsTheLine(s: Shell, old_: string, chunks: seq<string>)
    ensures EmitAll(s.(line := old_), chunks) == EmitAll(s, chunks).(line := old_)
    decreases |chunks|
  {
    if chunks != [] { EmitAllForgetsTheLine(Emit(s, chunks[0]), old_, chunks[1..]); }
  }

  /** Taking the first line out of the buffer and running it is the first step of running them all. */
  lemma CutOneLine(s: Shell)
    requires FirstEnd(s.line) < |s.line| && !Gone(s)
    ensures var n := FirstEnd(s.line); var rest := s.line[AfterEnd(s.line, n)..];
      var t := RunCommand(s.(line := rest), s.line[..n]);
      t.line == rest && RunLines(t, rest) == RunLines(s, s.line)
  {
    var n := FirstEnd(s.line);
    var rest := s.line[AfterEnd(s.line, n)..];
    RunCommandForgetsTheLine(s, rest, s.line[..n]);
    RunLinesForgetsTheLine(RunCommand(s, s.line[..n]), rest, rest);
  }

  lemma RunCommandForgetsTheLine(s: Shell, old_: string, cmd: string)
    ensures RunCommand(s.(line := old_), cmd) == RunCommand(s, cmd).(line := old_)
  {
    EmitAllForgetsTheLine(s, old_, Script(s.host, s.cols, s.rows, cmd).0);
  }

  lemma {:induction false} RunLinesOfConcat(s: Shell, a: string, b: string)
    requires !SplitsCrLf(a, b)
    ensures var t, whole := RunLines(s, a), RunLines(s, a + b);
      if Gone(t) then whole.(line := "") == t.(line := "") else whole == RunLines(t, t.line + b)
    decreases |a|
  {
    var n := FirstEnd(a);
    if n == |a| || Gone(s) {
      RunLinesForgetsTheLine(s, a, a + b);
    } else {
      FirstLineStays(a, b);
      RunLinesOfConcat(RunCommand(s, a[..n]), a[AfterEnd(a, n)..], b);
    }
  }

  /** A CR LF that is read together is consumed together. */
  lemma {:induction false} RunLinesOfSplit(s: Shell, a: string, b: string)
    requires SplitsCrLf(a, b)
    ensures var t, whole := RunLines(s, a), RunLines(s, a + b);
      if Gone(t) then whole.(line := "") == t.(line := "") else t.line == "" && whole == RunLines(t, b[1..])
    decreases |a|
  {
    var n := FirstEnd(a);
    FirstEndOfConcat(a, b);
    if Gone(s) {
    } else if n == |a| - 1 {
      SplitLastLine(s, a, b);
    } else {
      FirstLineStays(a, b);
      RunLinesOfSplit(RunCommand(s, a[..n]), a[AfterEnd(a, n)..], b);
    }
  }

  lemma SplitLastLine(s: Shell, a: string, b: string)
    requires SplitsCrLf(a, b) && FirstEnd(a) == |a| - 1 && !Gone(s)
    ensures var t, whole := RunLines(s, a), RunLines(s, a + b);
      if Gone(t) then whole.(line := "") == t.(line := "") else t.line == "" && whole == RunLines(t, b[1..])
  {
    var s1 := RunCommand(s, a[..|a| - 1]);
    SplitAtTheEnd(a, b);
    assert RunLines(s, a) == s1.(line := "");
    assert RunLines(s, a + b) == RunLines(s1, b[1..]);
    RunLinesForgetsTheLine(s1, "", b[1..]);
  }

  lemma ConcatSlices(a: string, b: string, n: nat)
    requires n <= |a|
    ensures (a + b)[..n] == a[..n] && (a + b)[n..] == a[n..] + b
  {
  }

  /** The first line of a text is cut off alike whatever follows, unless it is the one a cut CR ends. */
  lemma FirstLineStays(a: string, b: string)
    requires FirstEnd(a) < |a| && (SplitsCrLf(a, b) ==> FirstEnd(a) < |a| - 1)
    ensures var n := FirstEnd(a); var k := AfterEnd(a, n);
      && FirstEnd(a + b) == n && AfterEnd(a + b, n) == k && (a + b)[..n] == a[..n] && (a + b)[k..] == a[k..] + b
    ensures SplitsCrLf(a, b) <==> SplitsCrLf(a[AfterEnd(a, FirstEnd(a))..], b)
  {
    var n := FirstEnd(a);
    FirstEndOfConcat(a, b);
    EndStays(a, b, n);
    ConcatSlices(a, b, n);
    ConcatSlices(a, b, AfterEnd(a, n));
    SplitStays(a, b, AfterEnd(a, n));
  }

  lemma EndStays(a: string, b: string, n: nat)
    requires n < |a| && IsEnd(a[n]) && (SplitsCrLf(a, b) ==> n < |a| - 1)
    ensures AfterEnd(a + b, n) == AfterEnd(a, n)
  {
  }

  lemma SplitStays(a: string, b: string, k: nat)
    requires 0 < k <= |a| && (SplitsCrLf(a, b) ==> k < |a|)
    ensures SplitsCrLf(a, b) <==> SplitsCrLf(a[k..], b)
  {
  }

  lemma SplitAtTheEnd(a: string, b: string)
    requires SplitsCrLf(a, b) && FirstEnd(a) == |a| - 1
    ensures var n := |a| - 1;
      && FirstEnd(a + b) == n && (a + b)[..n] == a[..n]
      && a[AfterEnd(a, n)..] == "" && (a + b)[AfterEnd(a + b, n)..] == b[1..]
  {
    FirstEndOfConcat(a, b);
  }

  /** How many chunks the lines of `input` make the shell emit, up to the one that exits. */
  function Produced(host: Host, cols: nat, rows: nat, input: string): nat
    decreases |input|
  {
    var n := FirstEnd(input);
    if n == |input| then 0
    else
      var (chunks, code) := Script(host, cols, rows, input[..n]);
      |chunks| + if code.Some? then 0 else Produced(host, cols, rows, input[AfterEnd(input, n)..])
  }

  lemma {:induction false} EmitAllProduces(s: Shell, chunks: seq<string>)
    requires !s.dead
    ensures var t := EmitAll(s, chunks);
      && |t.emitted| == |s.emitted| + |chunks| && !t.dead && t.closing == s.closing
      && t.host == s.host && t.cols == s.cols && t.rows == s.rows
    decreases |chunks|
  {
    if chunks != [] { EmitAllProduces(Emit(s, chunks[0]), chunks[1..]); }
  }

  /** Output depends on the input alone, not on pauses, readers or what is queued. */
  lemma {:induction false} RunLinesProduces(s: Shell, input: string)
    requires !Gone(s)
    ensures |RunLines(s, input).emitted| == |s.emitted| + Produced(s.host, s.cols, s.rows, input)
    decreases |input|
  {
    var n := FirstEnd(input);
    if n < |input| {
      EmitAllProduces(s, Script(s.host, s.cols, s.rows, input[..n]).0);
      var s1 := RunCommand(s, input[..n]);
      if !Gone(s1) { RunLinesProduces(s1, input[AfterEnd(input, n)..]); }
    }
  }

  /** The second half of a split CR LF is an empty command, and it makes itself heard. */
  lemma {:induction false} StrayLineFeedIsHeard(t: Shell, b: string)
    requires !Gone(t) && b != "" && b[0] == '\n'
    ensures |RunLines(t, b).emitted| > |RunLines(t, b[1..]).emitted|
  {
    RunLinesProduces(t, b);
    RunLinesProduces(t, b[1..]);
    assert b[..0] == "" && AfterEnd(b, 0) == 1;
  }

  /**
   * Typing a text in one write or in two makes no difference, line buffer included, exactly when the
   * cut splits no CR LF or the first part has already ended the shell.
   */
  lemma TypingInPieces(s: Shell, a: string, b: string)
    ensures var whole, pieces := Apply(s, Write(a + b)), Apply(Apply(s, Write(a)), Write(b));
      && (whole.(line := "") == pieces.(line := "") <==> !SplitsCrLf(s.line + a, b) || Gone(Apply(s, Write(a))))
      && (!SplitsCrLf(s.line + a, b) && !Gone(whole) ==> whole == pieces)
  {
    if !Gone(s) {
      assert s.line + (a + b) == (s.line + a) + b;
      if SplitsCrLf(s.line + a, b) {
        RunLinesOfSplit(s, s.line + a, b);
        var t := Apply(s, Write(a));
        assert "" + b == b;
        if !Gone(t) { StrayLineFeedIsHeard(t, b); }
      } else {
        RunLinesOfConcat(s, s.line + a, b);
      }
    }
  }

  // ---------------------------------------------------------------- what the commands do

  /** A shell that delivers at once and has nothing in its line buffer. */
  predicate Ready(s: Shell) {
    Flowing(s) && Wired(s) && !Gone(s) && s.line == ""
  }

  lemma {:induction false} NoEndInside(cmd: string)
    requires forall i :: 0 <= i < |cmd| ==> !IsEnd(cmd[i])
    ensures FirstEnd(cmd + "\n") == |cmd|
  {
    if cmd != "" {
      assert (cmd + "\n")[1..] == cmd[1..] + "\n";
      NoEndInside(cmd[1..]);
    }
  }

  /** A command typed with its newline runs exactly once, as a whole. */
  lemma TypedCommandRuns(s: Shell, cmd: string)
    requires Ready(s) && QueueOk(s) && forall i :: 0 <= i < |cmd| ==> !IsEnd(cmd[i])
    ensures Apply(s, Write(cmd + "\n")) == RunCommand(s, cmd).(line := "")
  {
    var input := cmd + "\n";
    assert s.line + input == input;
    NoEndInside(cmd);
    assert input[..|cmd|] == cmd && AfterEnd(input, |cmd|) == |input| && input[|input|..] == "";
    assert RunLines(s, input) == RunLines(RunCommand(s, cmd), "");
  }

  /** An exit line with a number that is not negative is reported as that number, any other as 1. */
  lemma ExitReportsItsCode(s: Shell, arg: string)
    requires Ready(s) && QueueOk(s) && forall i :: 0 <= i < |arg| ==> !IsEnd(arg[i])
    ensures var t := Apply(s, Write("exit " + arg + "\n"));
      && t.dead
      && t.exits == s.exits + [match s.host.integer(arg) case Some(n) => if n >= 0 then n else 1 case None => 1]
  {
    var cmd := "exit " + arg;
    CommandWord("exit ", arg);
    TypedCommandRuns(s, cmd);
    ScriptEmits(s, cmd);
    assert cmd[..5] == "exit " && cmd[0] == 'e' && cmd[1] == 'x';
    assert !StartsWith(cmd, "echo ") && !StartsWith(cmd, "cwd ") && StartsWith(cmd, "exit ");
  }

  lemma CommandWord(word: string, arg: string)
    requires forall i :: 0 <= i < |word| ==> !IsEnd(word[i])
    requires forall i :: 0 <= i < |arg| ==> !IsEnd(arg[i])
    ensures var cmd := word + arg;
      && (forall i :: 0 <= i < |cmd| ==> !IsEnd(cmd[i])) && word <= cmd && cmd[|word|..] == arg
  {
  }

  lemma ScriptEmits(s: Shell, cmd: string)
    requires Ready(s) && QueueOk(s)
    ensures var (chunks, code) := Script(s.host, s.cols, s.rows, cmd);
      var t := RunCommand(s, cmd);
      && t.emitted == s.emitted + chunks
      && (code.None? ==> t.exits == s.exits && !t.dead)
      && (code.Some? ==> t.exits == s.exits + [code.value] && t.dead)
  {
    EmitAllKeeps(s, Script(s.host, s.cols, s.rows, cmd).0);
    EmitAllFlowing(s, Script(s.host, s.cols, s.rows, cmd).0);
  }

  /** Echo says what it was told, between the command marker and the marker of success. */
  lemma EchoEchoes(s: Shell, arg: string)
    requires Ready(s) && QueueOk(s) && forall i :: 0 <= i < |arg| ==> !IsEnd(arg[i])
    ensures var t := Apply(s, Write("echo " + arg + "\n"));
      !t.dead && t.exits == s.exits
      && t.emitted == s.emitted + ([MARKER_C, arg + "\r\n"] + [MarkerD(s.host, 0), MARKER_A, PROMPT])
  {
    var cmd := "echo " + arg;
    CommandWord("echo ", arg);
    TypedCommandRuns(s, cmd);
    ScriptEmits(s, cmd);
    assert |cmd| >= 5 && cmd != "echo" && cmd[5..] == arg;
  }

  /** The size command reports the size of the last resize. */
  lemma SizeTellsTheLastResize(s: Shell, cols: nat, rows: nat)
    requires Ready(s) && QueueOk(s)
    ensures var t := Apply(Apply(s, Resize(cols, rows)), Write("size\n"));
      t.emitted == s.emitted
        + ([MARKER_C, "size=" + s.host.decimal(cols) + "x" + s.host.decimal(rows) + "\r\n"]
           + [MarkerD(s.host, 0), MARKER_A, PROMPT])
  {
    var s1 := Apply(s, Resize(cols, rows));
    var cmd := "size";
    TypedCommandRuns(s1, cmd);
    ScriptEmits(s1, cmd);
    assert cmd + "\n" == "size\n" && cmd[0] == 's' && !StartsWith(cmd, "echo ") && !StartsWith(cmd, "cwd ");
  }

  /** The directory commands: one tells where the shell was started, the other announces a new directory. */
  lemma DirectoriesAreTold(s: Shell, dir: string)
    requires Ready(s) && QueueOk(s) && forall i :: 0 <= i < |dir| ==> !IsEnd(dir[i])
    ensures Apply(s, Write("pwd\n")).emitted ==
      s.emitted + ([MARKER_C, s.host.cwd + "\r\n"] + [MarkerD(s.host, 0), MARKER_A, PROMPT])
    ensures Apply(s, Write("cwd " + dir + "\n")).emitted ==
      s.emitted + ([MARKER_C, "\U{1b}]9;9;" + dir + "\U{07}"] + [MarkerD(s.host, 0), MARKER_A, PROMPT])
  {
    var pwd := "pwd";
    TypedCommandRuns(s, pwd);
    ScriptEmits(s, pwd);
    assert pwd + "\n" == "pwd\n" && pwd[0] == 'p' && !StartsWith(pwd, "echo ") && !StartsWith(pwd, "cwd ");
    CdTells(s, dir);
  }

  lemma CdTells(s: Shell, dir: string)
    requires Ready(s) && QueueOk(s) && forall i :: 0 <= i < |dir| ==> !IsEnd(dir[i])
    ensures Apply(s, Write("cwd " + dir + "\n")).emitted ==
      s.emitted + ([MARKER_C, "\U{1b}]9;9;" + dir + "\U{07}"] + [MarkerD(s.host, 0), MARKER_A, PROMPT])
  {
    var cmd := "cwd " + dir;
    CommandWord("cwd ", dir);
    TypedCommandRuns(s, cmd);
    ScriptEmits(s, cmd);
    assert cmd[0] == 'c' && cmd != "echo" && !StartsWith(cmd, "echo ");
  }

  /** A command that is none of the known ones is refused by name, with 127, and the shell lives on. */
  lemma UnknownCommandIsRefused(s: Shell, cmd: string)
    requires Ready(s) && QueueOk(s) && forall i :: 0 <= i < |cmd| ==> !IsEnd(cmd[i])
    requires cmd !in {"echo", "pwd", "size", "exit", "flood"}
    requires !("echo " <= cmd) && !("cwd " <= cmd) && !("exit " <= cmd) && !("flood " <= cmd)
    ensures var t := Apply(s, Write(cmd + "\n"));
      !t.dead && t.emitted == s.emitted
        + ([MARKER_C, "fake: unknown command \"" + cmd + "\"\r\n"] + [MarkerD(s.host, 127), MARKER_A, PROMPT])
  {
    TypedCommandRuns(s, cmd);
    ScriptEmits(s, cmd);
    UnknownScript(s.host, s.cols, s.rows, cmd);
  }

  lemma UnknownScript(host: Host, cols: nat, rows: nat, cmd: string)
    requires cmd !in {"echo", "pwd", "size", "exit", "flood"}
    requires !("echo " <= cmd) && !("cwd " <= cmd) && !("exit " <= cmd) && !("flood " <= cmd)
    ensures Script(host, cols, rows, cmd) ==
      ([MARKER_C, "fake: unknown command \"" + cmd + "\"\r\n"] + [MarkerD(host, 127), MARKER_A, PROMPT], None)
  {
  }

  lemma {:induction false} WordStops(word: string, rest: string)
    requires word != "" && ' ' !in word && (rest == "" || rest[0] == ' ')
    ensures WordEnd(word + rest) == |word|
  {
    if |word| > 1 {
      assert (word + rest)[1..] == word[1..] + rest;
      WordStops(word[1..], rest);
    }
  }

  lemma OneWord(word: string, rest: string)
    requires word != "" && ' ' !in word && (rest == "" || rest[0] == ' ')
    ensures Words(word + rest) == [word] + Words(rest)
  {
    WordStops(word, rest);
    assert (word + rest)[..|word|] == word && (word + rest)[|word|..] == rest;
  }

  lemma Spaced(rest: string)
    ensures Words(" " + rest) == Words(rest)
  {
    assert (" " + rest)[1..] == rest;
  }

  /** The arguments of a flood are taken exactly when both are positive integers whose product is within the bound. */
  lemma FloodArgsIff(host: Host, a: string, b: string)
    requires a != "" && b != "" && ' ' !in a && ' ' !in b
    ensures FloodArgs(host, "flood " + a + " " + b) ==
      match (host.integer(a), host.integer(b))
      case (Some(n), Some(m)) => if n > 0 && m > 0 && n * m <= FLOOD_MAX_TOTAL_UNITS then Some((n, m)) else None
      case _ => None
  {
    var flood := "flood";
    assert "flood " + a + " " + b == flood + (" " + (a + (" " + b)));
    OneWord(flood, " " + (a + (" " + b)));
    Spaced(a + (" " + b));
    OneWord(a, " " + b);
    Spaced(b);
    assert b + "" == b;
    OneWord(b, "");
  }

  /** A chunk of the filler, which starts over with every chunk. */
  ghost predicate Filler(chunk: string, units: nat) {
    |chunk| == units && forall j :: 0 <= j < units ==> chunk[j] == FLOOD_FILLER[j % |FLOOD_FILLER|]
  }

  /** A flood that fits emits exactly the chunks asked for, each of the size asked for, and ends with success. */
  lemma FloodIsExact(s: Shell, cmd: string, chunks: nat, bytes: nat)
    requires Ready(s) && QueueOk(s) && StartsWith(cmd, "flood ") && FloodArgs(s.host, cmd) == Some((chunks, bytes))
    requires forall i :: 0 <= i < |cmd| ==> !IsEnd(cmd[i])
    ensures chunks > 0 && bytes > 0 && chunks * bytes <= FLOOD_MAX_TOTAL_UNITS
    ensures var t := Apply(s, Write(cmd + "\n")); var n := |s.emitted|;
      && |t.emitted| == n + 1 + chunks + 3 && s.emitted <= t.emitted && t.emitted[n] == MARKER_C
      && (forall i :: n < i <= n + chunks ==> Filler(t.emitted[i], bytes))
      && t.emitted[n + 1 + chunks..] == [MarkerD(s.host, 0), MARKER_A, PROMPT]
  {
    TypedCommandRuns(s, cmd);
    ScriptEmits(s, cmd);
    FloodScript(s.host, s.cols, s.rows, cmd);
    var output := seq(chunks, i => FloodChunk(bytes)) + [MarkerD(s.host, 0), MARKER_A, PROMPT];
    assert FloodOutput(s.host, cmd) == output;
    var all := s.emitted + ([MARKER_C] + output);
    forall i | |s.emitted| < i <= |s.emitted| + chunks ensures Filler(all[i], bytes) {
      assert all[i] == output[i - |s.emitted| - 1] == FloodChunk(bytes);
    }
  }

  lemma FloodScript(host: Host, cols: nat, rows: nat, cmd: string)
    requires StartsWith(cmd, "flood ")
    ensures Script(host, cols, rows, cmd) == ([MARKER_C] + FloodOutput(host, cmd), None)
  {
    assert cmd[0] == 'f' && cmd[1] == 'l';
  }

  /** A flood that does not fit is refused with one line and status 1, and the shell lives on. */
  lemma MisfitFloodIsRefused(s: Shell, cmd: string)
    requires Ready(s) && QueueOk(s) && StartsWith(cmd, "flood ") && FloodArgs(s.host, cmd).None?
    requires forall i :: 0 <= i < |cmd| ==> !IsEnd(cmd[i])
    ensures var t := Apply(s, Write(cmd + "\n"));
      && !t.dead && |t.emitted| == |s.emitted| + 5 && s.emitted <= t.emitted
      && t.emitted[|s.emitted| + 2..] == [MarkerD(s.host, 1), MARKER_A, PROMPT]
  {
    TypedCommandRuns(s, cmd);
    ScriptEmits(s, cmd);
    FloodScript(s.host, s.cols, s.rows, cmd);
    assert FloodOutput(s.host, cmd)[1..] == [MarkerD(s.host, 1), MARKER_A, PROMPT];
  }

  // ---------------------------------------------------------------- the object

  /** The handle as its closure keeps it. */
  class FakeHandle {
    const host: Host
    var cols: nat
    var rows: nat
    var line: string
    var dead: bool
    var paused: bool
    var closing: bool
    var hasDataCb: bool
    var hasExitCb: bool
    var pendingData: seq<string>
    var pendingExit: Option<int>
    var deferredExit: Option<int>
    var emitted: seq<string>
    var delivered: seq<string>
    var exits: seq<int>
    var reactions: seq<bool>
    var killed: bool

    ghost function State(): Shell
      reads this
    {
      Shell(host, cols, rows, line, dead, paused, closing, hasDataCb, hasExitCb, pendingData, pendingExit,
            deferredExit, emitted, delivered, exits, reactions, killed)
    }

    constructor (host: Host, cols: nat, rows: nat, reactions: seq<bool>)
      ensures State() == Spawned(host, cols, rows, reactions)
    {
      this.host, this.cols, this.rows, this.reactions := host, cols, rows, reactions;
      line, dead, paused, closing, hasDataCb, hasExitCb := "", false, false, false, false, false;
      pendingData, pendingExit, deferredExit, emitted, delivered, exits := [], None, None, [], [], [];
      killed := false;
      new;
      EmitEach([MARKER_A, PROMPT]);
    }

    /** Run the data callback; the consumer may answer by pausing this very handle. */
    method CallBack(data: string)
      modifies this
      ensures State() == Deliver(old(State()), data)
    {
      delivered := delivered + [data];
      if reactions != [] {
        if reactions[0] { paused := true; }
        reactions := reactions[1..];
      }
    }

    method EmitOne(data: string)
      modifies this
      ensures State() == Emit(old(State()), data)
    {
      if dead { return; }
      emitted := emitted + [data];
      if paused || !hasDataCb { pendingData := pendingData + [data]; } else { CallBack(data); }
    }

    method EmitEach(chunks: seq<string>)
      modifies this
      ensures State() == EmitAll(old(State()), chunks)
    {
      var k := 0;
      while k < |chunks|
        invariant 0 <= k <= |chunks|
        invariant EmitAll(State(), chunks[k..]) == EmitAll(old(State()), chunks)
      {
        EmitOne(chunks[k]);
        k := k + 1;
      }
    }

    method Flush()
      modifies this
      ensures State() == FlushPending(old(State()))
    {
      if !hasDataCb { return; }
      while pendingData != [] && !paused && !dead
        invariant hasDataCb && FlushPending(State()) == FlushPending(old(State()))
        decreases |pendingData|
      {
        var head := pendingData[0];
        pendingData := pendingData[1..];
        CallBack(head);
      }
    }

    method ExitWith(code: int)
      modifies this
      ensures State() == Exit(old(State()), code)
    {
      if dead { return; }
      if paused {
        deferredExit := Some(code);
        closing := true;
        return;
      }
      dead := true;
      if hasExitCb { exits := exits + [code]; } else { pendingExit := Some(code); }
    }

    method RunOne(cmd: string)
      modifies this
      ensures State() == RunCommand(old(State()), cmd)
    {
      var (chunks, code) := Script(host, cols, rows, cmd);
      EmitEach(chunks);
      if code.Some? { ExitWith(code.value); }
    }

    method WriteInput(data: string)
      modifies this
      ensures State() == Apply(old(State()), Write(data))
    {
      if dead || closing { return; }
      line := line + data;
      RunLinesForgetsTheLine(old(State()), line, line);
      var nl := FirstEnd(line);
      while nl < |line| && !dead && !closing
        invariant nl == FirstEnd(line)
        invariant RunLines(State(), line) == RunLines(old(State()), old(line) + data)
        decreases |line|
      {
        CutOneLine(State());
        var raw := line[..nl];
        line := line[AfterEnd(line, nl)..];
        RunOne(raw);
        nl := FirstEnd(line);
      }
      assert RunLines(State(), line) == State();
    }

    method ResumeIt()
      modifies this
      ensures State() == Apply(old(State()), Resume)
    {
      if !paused { return; }
      paused := false;
      Flush();
      FireDeferred();
    }

    /** A deferred exit fires once nothing is queued any more. */
    method FireDeferred()
      modifies this
      ensures State() == FireDeferredExit(old(State()))
    {
      if deferredExit.Some? && !paused && pendingData == [] {
        var code := deferredExit.value;
        deferredExit := None;
        ExitWith(code);
      }
    }

    method AttachData()
      modifies this
      ensures State() == Apply(old(State()), OnData)
    {
      hasDataCb := true;
      if !paused { Flush(); }
    }

    method AttachExit()
      modifies this
      ensures State() == Apply(old(State()), OnExit)
    {
      hasExitCb := true;
      if pendingExit.Some? {
        exits := exits + [pendingExit.value];
        pendingExit := None;
      }
    }

    method KillIt()
      modifies this
      ensures State() == Apply(old(State()), Kill)
    {
      paused := false;
      deferredExit := None;
      killed := killed || !dead;
      ExitWith(0);
    }
  }
}
