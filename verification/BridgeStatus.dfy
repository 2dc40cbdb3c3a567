/**
 * The bridge's status line: a batch parser over the whole of stderr, and an incremental scanner
 * that keeps only a bounded piece of the unfinished line.
 *
 * `parse` stands for reading the JSON after the prefix; None means malformed or mistyped.
 */
module BridgeStatus {
  import opened Chunks

  const PREFIX: string := "TERMHALLA_BRIDGE_V1 "
  const NEWLINE: char := '\n'
  const WINDOW_CHARS: nat := 8192

  datatype Status = Status(spawned: bool, version: Option<string>, proto: Option<real>, pid: Option<real>)

  type Parser = string -> Option<Status>

  // ---------------------------------------------------------------- lines

  /** The text after the last newline. */
  function Tail(text: string): string {
    if text == "" || text[|text| - 1] == NEWLINE then "" else Tail(text[..|text| - 1]) + [text[|text| - 1]]
  }

  /** The lines ended by a newline. */
  function Complete(text: string): seq<string> {
    if text == "" then []
    else
      var front := text[..|text| - 1];
      if text[|text| - 1] == NEWLINE then Complete(front) + [Tail(front)] else Complete(front)
  }

  /** Splitting at newlines: the text after the last one is a line too. */
  function Lines(text: string): seq<string> {
    Complete(text) + [Tail(text)]
  }

  lemma SnocAppend(t: string, u: string)
    requires u != ""
    ensures t + u == (t + u[..|u| - 1]) + [u[|u| - 1]]
  {
  }

  lemma {:induction false} AppendTail(t: string, u: string)
    ensures Tail(t + u) == Tail(Tail(t) + u)
    decreases |u|
  {
    if u == "" {
      assert t + u == t && Tail(t) + u == Tail(t);
      TailHasNoLine(t);
    } else {
      var front, last := u[..|u| - 1], u[|u| - 1];
      AppendTail(t, front);
      SnocAppend(t, u);
      SnocAppend(Tail(t), u);
      AppendOne(t + front, last);
      AppendOne(Tail(t) + front, last);
    }
  }

  /** Text that arrives is split behind what is left of the last line. */
  lemma {:induction false} AppendLines(t: string, u: string)
    ensures Complete(t + u) == Complete(t) + Complete(Tail(t) + u)
    decreases |u|
  {
    if u == "" {
      assert t + u == t && Tail(t) + u == Tail(t);
      TailHasNoLine(t);
    } else {
      var front, last := u[..|u| - 1], u[|u| - 1];
      AppendLines(t, front);
      AppendTail(t, front);
      SnocAppend(t, u);
      SnocAppend(Tail(t), u);
      CompleteStep(t + front, Tail(t) + front, Complete(t), last);
    }
  }

  lemma {:induction false} CompleteStep(whole: string, short: string, before: seq<string>, last: char)
    requires Complete(whole) == before + Complete(short) && Tail(whole) == Tail(short)
    ensures Complete(whole + [last]) == before + Complete(short + [last])
  {
    AppendOne(whole, last);
    AppendOne(short, last);
  }

  lemma {:induction false} AppendOne(text: string, c: char)
    ensures Complete(text + [c]) == if c == NEWLINE then Complete(text) + [Tail(text)] else Complete(text)
    ensures Tail(text + [c]) == if c == NEWLINE then "" else Tail(text) + [c]
  {
    assert (text + [c])[..|text + [c]| - 1] == text;
  }

  lemma {:induction false} TailHasNoLine(text: string)
    ensures NEWLINE !in Tail(text) && Complete(Tail(text)) == [] && Tail(Tail(text)) == Tail(text)
    decreases |text|
  {
    if text != "" && text[|text| - 1] != NEWLINE {
      TailHasNoLine(text[..|text| - 1]);
      AppendOne(Tail(text[..|text| - 1]), text[|text| - 1]);
    }
  }

  lemma {:induction false} OneLine(text: string)
    requires NEWLINE !in text
    ensures Complete(text) == [] && Tail(text) == text
    decreases |text|
  {
    if text != "" { OneLine(text[..|text| - 1]); }
  }

  lemma {:induction false} CutFirstLine(text: string, nl: nat)
    requires nl < |text| && text[nl] == NEWLINE && NEWLINE !in text[..nl]
    ensures Complete(text) == [text[..nl]] + Complete(text[nl + 1..]) && Tail(text) == Tail(text[nl + 1..])
  {
    var line, rest := text[..nl], text[nl + 1..];
    EndedLine(line);
    AppendLines(line + [NEWLINE], rest);
    AppendTail(line + [NEWLINE], rest);
    CutAt(text, nl);
    assert "" + rest == rest;
  }

  lemma {:induction false} EndedLine(line: string)
    requires NEWLINE !in line
    ensures Complete(line + [NEWLINE]) == [line] && Tail(line + [NEWLINE]) == ""
  {
    OneLine(line);
    AppendOne(line, NEWLINE);
  }

  lemma CutAt(text: string, nl: nat)
    requires nl < |text| && text[nl] == NEWLINE
    ensures text[..nl] + [NEWLINE] + text[nl + 1..] == text
  {
  }

  // ---------------------------------------------------------------- batch parsing

  function TryLine(parse: Parser, line: string): Option<Status> {
    if PREFIX <= line then parse(line[|PREFIX|..]) else None
  }

  /** The first line that parses. */
  function First(parse: Parser, lines: seq<string>): Option<Status> {
    if lines == [] then None
    else
      var r := First(parse, lines[..|lines| - 1]);
      if r.Some? then r else TryLine(parse, lines[|lines| - 1])
  }

  function Batch(parse: Parser, text: string): Option<Status> {
    First(parse, Lines(text))
  }

  lemma {:induction false} FirstConcat(parse: Parser, a: seq<string>, b: seq<string>)
    ensures First(parse, a + b) == if First(parse, a).Some? then First(parse, a) else First(parse, b)
    decreases |b|
  {
    if b == [] {
      assert a + b == a;
    } else {
      FirstConcat(parse, a, b[..|b| - 1]);
      assert (a + b)[..|a + b| - 1] == a + b[..|b| - 1];
    }
  }

  /** The batch parse finds the status of the earliest line that has one, and none only if no line has. */
  lemma {:induction false} FirstIsEarliest(parse: Parser, lines: seq<string>)
    ensures First(parse, lines).None? <==> forall i :: 0 <= i < |lines| ==> TryLine(parse, lines[i]).None?
    ensures First(parse, lines).Some? ==>
      exists i :: 0 <= i < |lines| && TryLine(parse, lines[i]) == First(parse, lines)
        && forall j :: 0 <= j < i ==> TryLine(parse, lines[j]).None?
    decreases |lines|
  {
    if lines != [] {
      var n := |lines| - 1;
      var front := lines[..n];
      FirstIsEarliest(parse, front);
      assert forall i :: 0 <= i < n ==> front[i] == lines[i];
      if First(parse, front).Some? {
        var i :| 0 <= i < n && TryLine(parse, front[i]) == First(parse, front)
          && forall j :: 0 <= j < i ==> TryLine(parse, front[j]).None?;
        assert TryLine(parse, lines[i]) == First(parse, lines);
      } else if First(parse, lines).Some? {
        assert TryLine(parse, lines[n]) == First(parse, lines);
      }
    }
  }

  // ---------------------------------------------------------------- the scanner

  datatype Scan = Scan(found: Option<Status>, pending: string)

  const Start := Scan(None, "")

  function LastChars(text: string, window: nat): (r: string)
    ensures |r| <= window
  {
    if |text| > window then text[|text| - window..] else text
  }

  function Push(parse: Parser, window: nat, s: Scan, text: string): Scan {
    if s.found.Some? || text == "" then s
    else
      var r := Batch(parse, s.pending + text);
      if r.Some? then Scan(r, "") else Scan(None, LastChars(Tail(s.pending + text), window))
  }

  function Feed(parse: Parser, window: nat, chunks: seq<string>): Scan {
    if chunks == [] then Start
    else Push(parse, window, Feed(parse, window, chunks[..|chunks| - 1]), chunks[|chunks| - 1])
  }

  /** What re-running the batch parse over the growing text would have latched. */
  function FirstBatch(parse: Parser, chunks: seq<string>): Option<Status> {
    if chunks == [] then None
    else
      var r := FirstBatch(parse, chunks[..|chunks| - 1]);
      if r.Some? then r else Batch(parse, Flatten(chunks))
  }

  /** Nothing beyond the window is ever retained, whatever arrives. */
  lemma {:induction false} RetainedIsBounded(parse: Parser, window: nat, chunks: seq<string>)
    ensures |Feed(parse, window, chunks).pending| <= window
    decreases |chunks|
  {
    if chunks != [] { RetainedIsBounded(parse, window, chunks[..|chunks| - 1]); }
  }

  // ---------------------------------------------------------------- which texts are tried

  /** The text behind the prefix, if the line has it. */
  function Body(line: string): (r: seq<string>)
    ensures |r| <= 1
  {
    if PREFIX <= line then [line[|PREFIX|..]] else []
  }

  function Bodies(lines: seq<string>): seq<string> {
    if lines == [] then [] else Bodies(lines[..|lines| - 1]) + Body(lines[|lines| - 1])
  }

  /** The first text that parses. */
  function FirstOf(parse: Parser, bodies: seq<string>): Option<Status> {
    if bodies == [] then None
    else if parse(bodies[0]).Some? then parse(bodies[0])
    else FirstOf(parse, bodies[1..])
  }

  lemma {:induction false} FirstOfConcat(parse: Parser, a: seq<string>, b: seq<string>)
    ensures FirstOf(parse, a + b) == if FirstOf(parse, a).Some? then FirstOf(parse, a) else FirstOf(parse, b)
    decreases |a|
  {
    if a == [] {
      assert a + b == b;
    } else {
      FirstOfConcat(parse, a[1..], b);
      DropFirst(a, b);
    }
  }

  lemma {:induction false} FirstIsOfBodies(parse: Parser, lines: seq<string>)
    ensures First(parse, lines) == FirstOf(parse, Bodies(lines))
    decreases |lines|
  {
    if lines != [] {
      FirstIsOfBodies(parse, lines[..|lines| - 1]);
      FirstOfConcat(parse, Bodies(lines[..|lines| - 1]), Body(lines[|lines| - 1]));
    }
  }

  lemma {:induction false} BodiesConcat(a: seq<string>, b: seq<string>)
    ensures Bodies(a + b) == Bodies(a) + Bodies(b)
    decreases |b|
  {
    if b == [] {
      assert a + b == a;
    } else {
      BodiesConcat(a, b[..|b| - 1]);
      assert (a + b)[..|a + b| - 1] == a + b[..|b| - 1];
    }
  }

  /** What the batch parser tries when it is run again after every chunk. */
  function BatchBodies(chunks: seq<string>): seq<string> {
    if chunks == [] then [] else BatchBodies(chunks[..|chunks| - 1]) + Bodies(Lines(Flatten(chunks)))
  }

  /** What the scanner keeps, as long as it has found nothing. */
  function Pending(window: nat, chunks: seq<string>): string {
    LastChars(Tail(Flatten(chunks)), window)
  }

  /** What the scanner tries, as long as it has found nothing. */
  function ScanBodies(window: nat, chunks: seq<string>): seq<string> {
    if chunks == [] then []
    else
      var front, last := chunks[..|chunks| - 1], chunks[|chunks| - 1];
      ScanBodies(window, front) + if last == "" then [] else Bodies(Lines(Pending(window, front) + last))
  }

  lemma {:induction false} BatchTries(parse: Parser, chunks: seq<string>)
    ensures FirstBatch(parse, chunks) == FirstOf(parse, BatchBodies(chunks))
    decreases |chunks|
  {
    if chunks != [] {
      var front := chunks[..|chunks| - 1];
      BatchTries(parse, front);
      FirstIsOfBodies(parse, Lines(Flatten(chunks)));
      FirstOfConcat(parse, BatchBodies(front), Bodies(Lines(Flatten(chunks))));
    }
  }

  /** The first line of `u`, without its newline, and the lines behind it. */
  function Head(u: string): string {
    if IndexOfNewline(u) < 0 then u else u[..IndexOfNewline(u)]
  }

  function Others(u: string): seq<string> {
    if IndexOfNewline(u) < 0 then [] else Lines(u[IndexOfNewline(u) + 1..])
  }

  /** Text that continues an unfinished line changes its first line only. */
  lemma {:induction false} LinesContinued(t: string, u: string)
    requires NEWLINE !in t
    ensures Lines(t + u) == [t + Head(u)] + Others(u)
  {
    var nl := IndexOfNewline(u);
    if nl < 0 {
      OneLine(t + u);
    } else {
      CutBehind(t, u, nl);
      CutFirstLine(t + u, |t| + nl);
      Regroup(t + Head(u), Complete(u[nl + 1..]), Tail(u[nl + 1..]));
    }
  }

  lemma {:induction false} TailContinued(t: string, u: string)
    requires NEWLINE !in t
    ensures Tail(t + u) == if NEWLINE in u then Tail(u) else t + u
  {
    var nl := IndexOfNewline(u);
    if nl < 0 {
      OneLine(t + u);
    } else {
      CutBehind(t, u, nl);
      CutFirstLine(t + u, |t| + nl);
      CutFirstLine(u, nl);
    }
  }

  lemma CutBehind(t: string, u: string, nl: nat)
    requires NEWLINE !in t && nl < |u| && u[nl] == NEWLINE && NEWLINE !in u[..nl]
    ensures var text, k := t + u, |t| + nl;
      text[..k] == t + u[..nl] && text[k + 1..] == u[nl + 1..] && text[k] == NEWLINE && NEWLINE !in text[..k]
  {
  }

  lemma Regroup(first: string, middle: seq<string>, last: string)
    ensures ([first] + middle) + [last] == [first] + (middle + [last])
  {
  }

  /** Keeping the end of the unfinished line loses nothing that would be kept later. */
  lemma {:induction false} KeptEndsAgree(window: nat, text: string, u: string)
    ensures LastChars(Tail(LastChars(Tail(text), window) + u), window) == LastChars(Tail(text + u), window)
  {
    var t := Tail(text);
    TailHasNoLine(text);
    AppendTail(text, u);
    TailContinued(t, u);
    TailContinued(LastChars(t, window), u);
    if NEWLINE !in u { LastCharsTwice(t, u, window); }
  }

  lemma LastCharsTwice(t: string, u: string, window: nat)
    ensures LastChars(LastChars(t, window) + u, window) == LastChars(t + u, window)
  {
    if |t| > window {
      var kept, n := t[|t| - window..], |t| - window;
      assert (t + u)[n..] == kept + u;
    }
  }

  lemma {:induction false} ScanTries(parse: Parser, window: nat, chunks: seq<string>)
    ensures Feed(parse, window, chunks).found == FirstOf(parse, ScanBodies(window, chunks))
    ensures Feed(parse, window, chunks).found.None? ==> Feed(parse, window, chunks).pending == Pending(window, chunks)
    decreases |chunks|
  {
    if chunks != [] {
      var front, last := chunks[..|chunks| - 1], chunks[|chunks| - 1];
      ScanTries(parse, window, front);
      var lines := Lines(Pending(window, front) + last);
      FirstIsOfBodies(parse, lines);
      FirstOfConcat(parse, ScanBodies(window, front), Bodies(lines));
      FirstOfConcat(parse, ScanBodies(window, front), []);
      KeptEndsAgree(window, Flatten(front), last);
      assert Flatten(front) + "" == Flatten(front);
    }
  }

  // ---------------------------------------------------------------- when all parsers agree

  function Set(texts: seq<string>): set<string> {
    set x | x in texts
  }

  /** The texts of `more` that are new, each where it occurs first. */
  function Novel(seen: set<string>, more: seq<string>): seq<string>
    decreases |more|
  {
    if more == [] then []
    else if more[0] in seen then Novel(seen, more[1..])
    else [more[0]] + Novel(seen + {more[0]}, more[1..])
  }

  lemma {:induction false} NovelIsNew(seen: set<string>, more: seq<string>)
    ensures forall x :: x in Novel(seen, more) <==> x in more && x !in seen
    decreases |more|
  {
    if more != [] {
      if more[0] in seen { NovelIsNew(seen, more[1..]); } else { NovelIsNew(seen + {more[0]}, more[1..]); }
    }
  }

  lemma {:induction false} NovelConcat(seen: set<string>, a: seq<string>, b: seq<string>)
    ensures Novel(seen, a + b) == Novel(seen, a) + Novel(seen + Set(a), b)
    decreases |a|
  {
    if a == [] {
      assert a + b == b && seen + Set(a) == seen;
    } else {
      DropFirst(a, b);
      var seen' := if a[0] in seen then seen else seen + {a[0]};
      NovelConcat(seen', a[1..], b);
      assert seen' + Set(a[1..]) == seen + Set(a);
    }
  }

  /** Trying a text again changes nothing. */
  lemma {:induction false} FirstOfNovel(parse: Parser, seen: set<string>, more: seq<string>)
    requires forall x :: x in seen ==> parse(x).None?
    ensures FirstOf(parse, Novel(seen, more)) == FirstOf(parse, more)
    decreases |more|
  {
    if more != [] {
      if more[0] in seen { FirstOfNovel(parse, seen, more[1..]); }
      else if parse(more[0]).None? { FirstOfNovel(parse, seen + {more[0]}, more[1..]); }
    }
  }

  predicate Distinct(texts: seq<string>) {
    texts == [] || (texts[0] !in texts[1..] && Distinct(texts[1..]))
  }

  lemma {:induction false} NovelIsDistinct(seen: set<string>, more: seq<string>)
    ensures Distinct(Novel(seen, more))
    decreases |more|
  {
    if more != [] {
      if more[0] in seen {
        NovelIsDistinct(seen, more[1..]);
      } else {
        NovelIsDistinct(seen + {more[0]}, more[1..]);
        NovelIsNew(seen + {more[0]}, more[1..]);
      }
    }
  }

  const Yes := Status(true, None, None, None)
  const No := Status(false, None, None, None)

  lemma {:induction false} FirstOfReads(parse: Parser, parse': Parser, texts: seq<string>)
    requires forall x :: x in texts ==> parse(x) == parse'(x)
    ensures FirstOf(parse, texts) == FirstOf(parse', texts)
    decreases |texts|
  {
    if texts != [] {
      assert parse(texts[0]) == parse'(texts[0]);
      FirstOfReads(parse, parse', texts[1..]);
    }
  }

  /** Different lists of different texts can be told apart. */
  lemma {:induction false} SomeParserTells(a: seq<string>, b: seq<string>) returns (parse: Parser)
    requires Distinct(a) && Distinct(b) && a != b
    ensures FirstOf(parse, a) != FirstOf(parse, b)
    decreases |a|
  {
    if a == [] {
      parse := _ => Some(Yes);
    } else if b == [] {
      parse := _ => Some(Yes);
    } else if a[0] != b[0] {
      parse := x => if x == a[0] then Some(Yes) else if x == b[0] then Some(No) else None;
    } else {
      assert a == [a[0]] + a[1..] && b == [b[0]] + b[1..];
      var tells := SomeParserTells(a[1..], b[1..]);
      parse := x => if x == a[0] then None else tells(x);
      FirstOfReads(parse, tells, a[1..]);
      FirstOfReads(parse, tells, b[1..]);
    }
  }

  /** Two lists of attempts give the same result under every parser exactly when they try the same new
      texts in the same order. */
  lemma {:induction false} AttemptsDecide(a: seq<string>, b: seq<string>)
    ensures (forall parse: Parser :: FirstOf(parse, a) == FirstOf(parse, b)) <==> Novel({}, a) == Novel({}, b)
  {
    forall parse: Parser
      ensures FirstOf(parse, a) == FirstOf(parse, Novel({}, a)) && FirstOf(parse, b) == FirstOf(parse, Novel({}, b))
    {
      FirstOfNovel(parse, {}, a);
      FirstOfNovel(parse, {}, b);
    }
    if Novel({}, a) != Novel({}, b) {
      NovelIsDistinct({}, a);
      NovelIsDistinct({}, b);
      var tells := SomeParserTells(Novel({}, a), Novel({}, b));
      assert FirstOf(tells, a) != FirstOf(tells, b);
    }
  }

  /** Trying `x` first makes no difference: nothing to try, tried before, or what comes next anyway. */
  predicate Harmless(seen: set<string>, x: seq<string>, rest: seq<string>)
    requires |x| <= 1
  {
    x == [] || x[0] in seen || (Novel(seen, rest) != [] && Novel(seen, rest)[0] == x[0])
  }

  lemma {:induction false} NextAnyway(seen: set<string>, x: string, rest: seq<string>)
    requires Novel(seen, rest) != [] && Novel(seen, rest)[0] == x
    ensures Novel(seen, rest) == [x] + Novel(seen + {x}, rest)
    decreases |rest|
  {
    if rest[0] in seen { NextAnyway(seen, x, rest[1..]); }
  }

  lemma {:induction false} FirstAttempt(seen: set<string>, x: seq<string>, rest: seq<string>)
    requires |x| <= 1
    ensures Novel(seen, x + rest) ==
      if x == [] || x[0] in seen then Novel(seen, rest) else [x[0]] + Novel(seen + {x[0]}, rest)
    ensures Harmless(seen, x, rest) <==> Novel(seen, x + rest) == Novel(seen, rest)
  {
    if x == [] {
      assert x + rest == rest;
    } else {
      assert (x + rest)[1..] == rest;
      if x[0] !in seen && Harmless(seen, x, rest) { NextAnyway(seen, x[0], rest); }
    }
  }

  lemma {:induction false} HeadsDifferIff(seen: set<string>, x: seq<string>, y: seq<string>, rest: seq<string>)
    requires |x| <= 1 && |y| <= 1 && (x == y ==> x == [])
    ensures Novel(seen, x + rest) == Novel(seen, y + rest) <==> Harmless(seen, x, rest) && Harmless(seen, y, rest)
  {
    FirstAttempt(seen, x, rest);
    FirstAttempt(seen, y, rest);
    if !Harmless(seen, x, rest) && !Harmless(seen, y, rest) {
      assert Novel(seen, x + rest)[0] == x[0] && Novel(seen, y + rest)[0] == y[0];
      assert x == [x[0]] && y == [y[0]];
    }
  }

  // ---------------------------------------------------------------- the scanner against the batch parser

  /**
   * Chunk `u`, which comes after `front`, cannot make scanner and batch parser differ: the unfinished
   * line fits the window; or, for that line and for its kept end alike, what `u` makes of it is no
   * status line, was tried before, or is the next new text that `u` brings anyway.
   */
  predicate ChunkIsHarmless(window: nat, front: seq<string>, u: string) {
    var t, seen := Tail(Flatten(front)), Set(BatchBodies(front));
    u == "" || |t| <= window
    || (Harmless(seen, Body(t + Head(u)), Bodies(Others(u)))
        && Harmless(seen, Body(LastChars(t, window) + Head(u)), Bodies(Others(u))))
  }

  ghost predicate SameAttempts(window: nat, chunks: seq<string>) {
    Novel({}, ScanBodies(window, chunks)) == Novel({}, BatchBodies(chunks))
  }

  /** What the batch parser has completed it has tried. */
  lemma {:induction false} CompleteWasTried(chunks: seq<string>)
    ensures Set(Bodies(Complete(Flatten(chunks)))) <= Set(BatchBodies(chunks))
    ensures Set(Bodies([Tail(Flatten(chunks))])) <= Set(BatchBodies(chunks))
  {
    if chunks == [] {
      assert [Tail(Flatten(chunks))][..0] == [];
    } else {
      BodiesConcat(Complete(Flatten(chunks)), [Tail(Flatten(chunks))]);
    }
  }

  lemma {:induction false} NothingNew(seen: set<string>, old_: seq<string>, more: seq<string>)
    requires forall x :: x in old_ ==> x in seen
    ensures Novel(seen, old_ + more) == Novel(seen, more)
    decreases |old_|
  {
    if old_ == [] {
      assert old_ + more == more;
    } else {
      DropFirst(old_, more);
      NothingNew(seen, old_[1..], more);
    }
  }

  lemma OneBody(line: string, others: seq<string>)
    ensures Bodies([line] + others) == Body(line) + Bodies(others)
  {
    BodiesConcat([line], others);
    assert [line][..0] == [];
  }

  /** The lines of the text so far with `u` behind it: what was complete, and what `u` makes of the rest. */
  lemma {:induction false} LinesWithChunk(text: string, u: string)
    ensures Bodies(Lines(text + u)) ==
      Bodies(Complete(text)) + (Body(Tail(text) + Head(u)) + Bodies(Others(u)))
  {
    var t := Tail(text);
    AppendLines(text, u);
    AppendTail(text, u);
    TailHasNoLine(text);
    LinesContinued(t, u);
    OneBody(t + Head(u), Others(u));
    RegroupLines(Complete(text), Complete(t + u), Tail(t + u));
    BodiesConcat(Complete(text), Lines(t + u));
  }

  lemma RegroupLines(first: seq<string>, middle: seq<string>, last: string)
    ensures (first + middle) + [last] == first + (middle + [last])
  {
  }

  lemma {:induction false} TriedAnew(before: seq<string>, old_: seq<string>, anew: seq<string>)
    requires Set(old_) <= Set(before)
    ensures Novel({}, before + (old_ + anew)) == Novel({}, before) + Novel(Set(before), anew)
  {
    NovelConcat({}, before, old_ + anew);
    assert {} + Set(before) == Set(before);
    NothingNew(Set(before), old_, anew) by {
      forall x | x in old_ ensures x in Set(before) { assert x in Set(old_); }
    }
  }

  /** What the batch parser tries anew when `u` arrives. */
  lemma {:induction false} BatchTriesAnew(front: seq<string>, u: string)
    ensures var t, before := Tail(Flatten(front)), BatchBodies(front);
      Novel({}, BatchBodies(front + [u])) ==
        Novel({}, before) + Novel(Set(before), Body(t + Head(u)) + Bodies(Others(u)))
  {
    var text := Flatten(front);
    FlattenSnoc(front, u);
    assert (front + [u])[..|front|] == front;
    LinesWithChunk(text, u);
    CompleteWasTried(front);
    TriedAnew(BatchBodies(front), Bodies(Complete(text)), Body(Tail(text) + Head(u)) + Bodies(Others(u)));
  }

  /** What the scanner tries anew when `u` arrives. */
  lemma {:induction false} ScanTriesAnew(window: nat, front: seq<string>, u: string)
    requires u != ""
    ensures var before := ScanBodies(window, front);
      Novel({}, ScanBodies(window, front + [u])) ==
        Novel({}, before) + Novel(Set(before), Body(Pending(window, front) + Head(u)) + Bodies(Others(u)))
  {
    var before, kept := ScanBodies(window, front), Pending(window, front);
    assert (front + [u])[..|front|] == front;
    TailHasNoLine(Flatten(front));
    LinesContinued(kept, u);
    OneBody(kept + Head(u), Others(u));
    NovelConcat({}, before, Bodies(Lines(kept + u)));
    assert {} + Set(before) == Set(before);
  }

  lemma {:induction false} SameNovelSameSet(a: seq<string>, b: seq<string>)
    requires Novel({}, a) == Novel({}, b)
    ensures Set(a) == Set(b)
  {
    NovelIsNew({}, a);
    NovelIsNew({}, b);
    assert forall x :: x in a <==> x in Novel({}, a);
    assert forall x :: x in b <==> x in Novel({}, b);
  }

  lemma CancelFront(a: seq<string>, b: seq<string>, c: seq<string>)
    ensures a + b == a + c <==> b == c
  {
    if a + b == a + c { assert b == (a + b)[|a|..] && c == (a + c)[|a|..]; }
  }

  lemma {:induction false} ChunkDecides(window: nat, front: seq<string>, u: string)
    requires SameAttempts(window, front) && u != ""
    ensures SameAttempts(window, front + [u]) <==> ChunkIsHarmless(window, front, u)
  {
    var t, kept := Tail(Flatten(front)), Pending(window, front);
    var a, b := ScanBodies(window, front), BatchBodies(front);
    BatchTriesAnew(front, u);
    ScanTriesAnew(window, front, u);
    SameNovelSameSet(a, b);
    var x, y, rest := Body(t + Head(u)), Body(kept + Head(u)), Bodies(Others(u));
    CancelFront(Novel({}, a), Novel(Set(b), x + rest), Novel(Set(b), y + rest));
    if |t| > window {
      assert x != [] && y != [] ==> |x[0]| > |y[0]|;
      HeadsDifferIff(Set(b), x, y, rest);
    }
  }

  /** A chunk without text: the scanner ignores it, the batch parser tries again what it has tried. */
  lemma {:induction false} EmptyChunkIsHarmless(window: nat, front: seq<string>)
    requires SameAttempts(window, front)
    ensures SameAttempts(window, front + [""])
  {
    var text, b := Flatten(front), BatchBodies(front);
    assert (front + [""])[..|front|] == front && text + "" == text;
    FlattenSnoc(front, "");
    CompleteWasTried(front);
    BodiesConcat(Complete(text), [Tail(text)]);
    var again := Bodies(Lines(text));
    assert Set(again) <= Set(b) by {
      assert Set(again) == Set(Bodies(Complete(text))) + Set(Bodies([Tail(text)]));
    }
    assert again == again + [];
    TriedAnew(b, again, []);
    var a := ScanBodies(window, front);
    assert ScanBodies(window, front + [""]) == a + [] && a + [] == a;
    assert BatchBodies(front + [""]) == b + again;
  }

  lemma {:induction false} AnyChunkDecides(window: nat, front: seq<string>, u: string, chunks: seq<string>)
    requires SameAttempts(window, front) && chunks == front + [u]
    ensures SameAttempts(window, chunks) <==> ChunkIsHarmless(window, front, u)
  {
    if u == "" { EmptyChunkIsHarmless(window, front); } else { ChunkDecides(window, front, u); }
  }

  lemma OneMoreChunk(chunks: seq<string>, k: nat)
    requires k < |chunks|
    ensures chunks[..k + 1] == chunks[..k] + [chunks[k]]
  {
  }

  lemma {:induction false} SameThroughout(window: nat, chunks: seq<string>, k: nat)
    requires forall j :: 0 <= j < |chunks| ==> ChunkIsHarmless(window, chunks[..j], chunks[j])
    requires k <= |chunks|
    ensures SameAttempts(window, chunks[..k])
  {
    if k > 0 {
      SameThroughout(window, chunks, k - 1);
      OneMoreChunk(chunks, k - 1);
      AnyChunkDecides(window, chunks[..k - 1], chunks[k - 1], chunks[..k]);
    }
  }

  lemma {:induction false} SameMeansHarmless(window: nat, chunks: seq<string>, k: nat)
    requires k < |chunks| && SameAttempts(window, chunks[..k]) && SameAttempts(window, chunks[..k + 1])
    ensures ChunkIsHarmless(window, chunks[..k], chunks[k])
  {
    OneMoreChunk(chunks, k);
    AnyChunkDecides(window, chunks[..k], chunks[k], chunks[..k + 1]);
  }

  lemma {:induction false} SameAttemptsSameResult(parse: Parser, window: nat, chunks: seq<string>)
    requires SameAttempts(window, chunks)
    ensures Feed(parse, window, chunks).found == FirstBatch(parse, chunks)
  {
    ScanTries(parse, window, chunks);
    BatchTries(parse, chunks);
    FirstOfNovel(parse, {}, ScanBodies(window, chunks));
    FirstOfNovel(parse, {}, BatchBodies(chunks));
  }

  lemma {:induction false} SameResultsSameAttempts(window: nat, chunks: seq<string>)
    requires forall parse: Parser :: Feed(parse, window, chunks).found == FirstBatch(parse, chunks)
    ensures SameAttempts(window, chunks)
  {
    forall parse: Parser
      ensures FirstOf(parse, ScanBodies(window, chunks)) == FirstOf(parse, BatchBodies(chunks))
    {
      assert Feed(parse, window, chunks).found == FirstBatch(parse, chunks);
      ScanTries(parse, window, chunks);
      BatchTries(parse, chunks);
    }
    AttemptsDecide(ScanBodies(window, chunks), BatchBodies(chunks));
  }

  /**
   * For every chunking and every window: after each chunk the scanner reports what re-running the
   * batch parse over all text so far would have found first, whatever the parser, if and only if no
   * chunk does harm.
   */
  lemma {:induction false} ScannerMatchesBatchIff(window: nat, chunks: seq<string>)
    ensures (forall k, parse: Parser :: 0 <= k <= |chunks| ==>
               Feed(parse, window, chunks[..k]).found == FirstBatch(parse, chunks[..k]))
      <==> (forall k :: 0 <= k < |chunks| ==> ChunkIsHarmless(window, chunks[..k], chunks[k]))
  {
    if forall k :: 0 <= k < |chunks| ==> ChunkIsHarmless(window, chunks[..k], chunks[k]) {
      forall k, parse: Parser | 0 <= k <= |chunks|
        ensures Feed(parse, window, chunks[..k]).found == FirstBatch(parse, chunks[..k])
      {
        SameThroughout(window, chunks, k);
        SameAttemptsSameResult(parse, window, chunks[..k]);
      }
    } else {
      var k :| 0 <= k < |chunks| && !ChunkIsHarmless(window, chunks[..k], chunks[k]);
      HarmShows(window, chunks, k);
    }
  }

  /** A chunk that does harm makes scanner and batch parser differ, under some parser, by its end at the latest. */
  lemma {:induction false} HarmShows(window: nat, chunks: seq<string>, k: nat)
    requires k < |chunks| && !ChunkIsHarmless(window, chunks[..k], chunks[k])
    ensures exists j, parse: Parser ::
      k <= j <= k + 1 && Feed(parse, window, chunks[..j]).found != FirstBatch(parse, chunks[..j])
  {
    var before, after := chunks[..k], chunks[..k + 1];
    if forall parse: Parser :: Feed(parse, window, before).found == FirstBatch(parse, before) {
      if forall parse: Parser :: Feed(parse, window, after).found == FirstBatch(parse, after) {
        SameResultsSameAttempts(window, before);
        SameResultsSameAttempts(window, after);
        SameMeansHarmless(window, chunks, k);
        assert false;
      }
    }
  }

  /** In particular when every unfinished line fits, or is no status line and does not look like one. */
  lemma {:induction false} ScannerMatchesBatch(parse: Parser, window: nat, chunks: seq<string>)
    requires forall k {:trigger chunks[k]} :: 0 <= k < |chunks| ==>
      var t := Tail(Flatten(chunks[..k]));
      |t| <= window || (!(PREFIX <= t + chunks[k]) && !(PREFIX <= LastChars(t, window) + chunks[k]))
    ensures Feed(parse, window, chunks).found == FirstBatch(parse, chunks)
  {
    forall k | 0 <= k < |chunks| ensures ChunkIsHarmless(window, chunks[..k], chunks[k]) {
      var u := chunks[k];
      var t := Tail(Flatten(chunks[..k]));
      if |t| > window {
        assert t + u == t + Head(u) + u[|Head(u)|..];
        assert LastChars(t, window) + u == LastChars(t, window) + Head(u) + u[|Head(u)|..];
      }
    }
    SameThroughout(window, chunks, |chunks|);
    assert chunks[..|chunks|] == chunks;
    SameAttemptsSameResult(parse, window, chunks);
  }

  /** Chunks of whole lines: the scanner agrees with one batch parse of the whole text, at any window. */
  lemma {:induction false} WholeLinesMatchOneParse(parse: Parser, window: nat, chunks: seq<string>)
    requires forall k :: 0 <= k < |chunks| ==> chunks[k] != "" && chunks[k][|chunks[k]| - 1] == NEWLINE
    ensures Feed(parse, window, chunks).found == Batch(parse, Flatten(chunks))
  {
    forall k | 0 <= k < |chunks| ensures Tail(Flatten(chunks[..k])) == "" {
      WholeLinesLeaveNoTail(chunks[..k]);
    }
    ScannerMatchesBatch(parse, window, chunks);
    WholeLinesLatchLikeOneParse(parse, chunks);
  }

  lemma {:induction false} WholeLinesLeaveNoTail(chunks: seq<string>)
    requires forall k :: 0 <= k < |chunks| ==> chunks[k] != "" && chunks[k][|chunks[k]| - 1] == NEWLINE
    ensures Tail(Flatten(chunks)) == ""
  {
    if chunks != [] {
      var text := Flatten(chunks);
      assert text[|text| - 1] == chunks[|chunks| - 1][|chunks[|chunks| - 1]| - 1];
    }
  }

  lemma EmptyTextHasNoStatus(parse: Parser)
    ensures Batch(parse, "").None?
  {
    assert Lines("") == [""] && First(parse, [""][..0]) == None && !(PREFIX <= "");
  }

  lemma {:induction false} WholeLinesLatchLikeOneParse(parse: Parser, chunks: seq<string>)
    requires forall k :: 0 <= k < |chunks| ==> chunks[k] != "" && chunks[k][|chunks[k]| - 1] == NEWLINE
    ensures FirstBatch(parse, chunks) == Batch(parse, Flatten(chunks))
    decreases |chunks|
  {
    EmptyTextHasNoStatus(parse);
    if chunks != [] {
      var front, last := chunks[..|chunks| - 1], chunks[|chunks| - 1];
      WholeLinesLatchLikeOneParse(parse, front);
      WholeLinesLeaveNoTail(front);
      AppendLines(Flatten(front), last);
      FirstConcat(parse, Complete(Flatten(front)), [""]);
      assert First(parse, [""]) == None by { assert [""][..0] == [] && !(PREFIX <= ""); }
      FirstConcat(parse, Complete(Flatten(front)), Complete("" + last) + [Tail(Flatten(chunks))]);
      assert Lines(Flatten(chunks)) == Complete(Flatten(front)) + (Complete("" + last) + [Tail(Flatten(chunks))]);
    }
  }

  // ---------------------------------------------------------------- lines longer than the window

  lemma {:induction false} OneLineBatch(parse: Parser, line: string)
    requires NEWLINE !in line
    ensures Batch(parse, line) == TryLine(parse, line)
  {
    OneLine(line);
    var lines := Lines(line);
    assert lines == [line] && lines[..|lines| - 1] == [] && lines[|lines| - 1] == line;
    assert First(parse, []) == None;
  }

  lemma {:induction false} FeedTwo(parse: Parser, window: nat, a: string, b: string)
    requires a != "" && b != "" && NEWLINE !in a && NEWLINE !in b && TryLine(parse, a).None?
    ensures Feed(parse, window, [a, b]).found == TryLine(parse, LastChars(a, window) + b)
    ensures FirstBatch(parse, [a, b]) == TryLine(parse, a + b)
  {
    OneLineBatch(parse, a);
    OneLine(a);
    assert [a, b][..1] == [a] && [a][..0] == [] && "" + a == a;
    assert Feed(parse, window, [a]) == Scan(None, LastChars(a, window));
    assert NEWLINE !in LastChars(a, window) + b;
    OneLineBatch(parse, LastChars(a, window) + b);
    OneLineBatch(parse, a + b);
    assert Flatten([]) == "" && Flatten([a]) == a && Flatten([a, b]) == a + b;
    assert FirstBatch(parse, [a]) == None;
  }

  /** A status line that was longer than the window before its last chunk is missed. */
  lemma {:induction false} OverlongStatusIsMissed(parse: Parser, window: nat, a: string, b: string)
    requires NEWLINE !in PREFIX + a && NEWLINE !in b && b != "" && parse(a).None? && parse(a + b).Some?
    requires |PREFIX + a| > window && !(PREFIX <= LastChars(PREFIX + a, window) + b)
    ensures FirstBatch(parse, [PREFIX + a, b]) == parse(a + b)
    ensures Feed(parse, window, [PREFIX + a, b]).found == None
  {
    var line := PREFIX + a;
    assert line[|PREFIX|..] == a && (line + b)[|PREFIX|..] == a + b && PREFIX <= line + b;
    FeedTwo(parse, window, line, b);
  }

  /** A status text in the middle of a longer line is taken for a line once the window starts at it. */
  lemma {:induction false} MidLineTextIsTaken(parse: Parser, window: nat, junk: string, a: string, b: string)
    requires NEWLINE !in PREFIX + a && NEWLINE !in b && NEWLINE !in junk && junk != "" && b != ""
    requires |PREFIX + a| == window && parse(a + b).Some? && !(PREFIX <= junk + (PREFIX + a))
      && !(PREFIX <= junk + (PREFIX + a) + b)
    ensures FirstBatch(parse, [junk + (PREFIX + a), b]) == None
    ensures Feed(parse, window, [junk + (PREFIX + a), b]).found == parse(a + b)
  {
    var kept := PREFIX + a;
    var line := junk + kept;
    assert LastChars(line, window) == kept;
    assert (kept + b)[|PREFIX|..] == a + b && PREFIX <= kept + b;
    FeedTwo(parse, window, line, b);
  }

  /** An overlong status line that the same chunk ends and then repeats is found all the same. */
  lemma {:induction false} RepeatedStatusIsFound(window: nat, a: string, b: string)
    requires NEWLINE !in PREFIX + a && NEWLINE !in b
    requires |PREFIX + a| > window && !(PREFIX <= LastChars(PREFIX + a, window) + b)
    ensures var first, second := PREFIX + a, b + [NEWLINE] + (PREFIX + a + b);
      && PREFIX <= first + second
      && forall parse: Parser :: Feed(parse, window, [first, second]).found == FirstBatch(parse, [first, second])
  {
    var second := b + [NEWLINE] + (PREFIX + a + b);
    assert PREFIX + a + second == PREFIX + (a + second);
    RepeatIsHarmless(window, a, b);
    HarmlessSecond(window, PREFIX + a, second);
  }

  lemma {:induction false} HarmlessSecond(window: nat, first: string, second: string)
    requires ChunkIsHarmless(window, [first], second)
    ensures forall parse: Parser :: Feed(parse, window, [first, second]).found == FirstBatch(parse, [first, second])
  {
    SecondIsSame(window, first, second);
    SameAttemptsSameResults(window, [first, second]);
  }

  lemma {:induction false} SecondIsSame(window: nat, first: string, second: string)
    requires ChunkIsHarmless(window, [first], second)
    ensures SameAttempts(window, [first, second])
  {
    FirstChunkIsSame(window, first);
    Pair(first, second);
    AnyChunkDecides(window, [first], second, [first, second]);
  }

  lemma Pair(first: string, second: string)
    ensures [first, second] == [first] + [second]
  {
  }

  lemma {:induction false} SameAttemptsSameResults(window: nat, chunks: seq<string>)
    requires SameAttempts(window, chunks)
    ensures forall parse: Parser :: Feed(parse, window, chunks).found == FirstBatch(parse, chunks)
  {
    forall parse: Parser ensures Feed(parse, window, chunks).found == FirstBatch(parse, chunks) {
      SameAttemptsSameResult(parse, window, chunks);
    }
  }

  lemma {:induction false} FirstChunkIsSame(window: nat, first: string)
    ensures SameAttempts(window, [first])
  {
    assert Flatten([]) == "" && Tail("") == "" && [] + [first] == [first];
    assert SameAttempts(window, []);
    AnyChunkDecides(window, [], first, [first]);
  }

  lemma {:induction false} RepeatIsHarmless(window: nat, a: string, b: string)
    requires NEWLINE !in PREFIX + a && NEWLINE !in b && !(PREFIX <= LastChars(PREFIX + a, window) + b)
    ensures ChunkIsHarmless(window, [PREFIX + a], b + [NEWLINE] + (PREFIX + a + b))
  {
    var first, line := PREFIX + a, PREFIX + a + b;
    FirstLineOf(b, line);
    OneBodyOnly(a + b, line);
    OneBodyOnly(a, first);
    TriedFirst(first, a);
    NextOrSeen(a, a + b);
    BodyOf(a + b, first + b);
  }

  lemma {:induction false} OneBodyOnly(text: string, line: string)
    requires line == PREFIX + text
    ensures Bodies([line]) == [text]
  {
    OneBody(line, []);
    assert [line] + [] == [line] && [text] + [] == [text];
    BodyOf(text, line);
  }

  lemma {:induction false} NextOrSeen(a: string, x: string)
    ensures Harmless({a}, [x], [x])
  {
    assert Novel({a}, [x]) == if x == a then [] else [x];
  }

  lemma BodyOf(text: string, line: string)
    requires line == PREFIX + text
    ensures Body(line) == [text]
  {
    assert line[|PREFIX|..] == text;
  }

  lemma {:induction false} FirstLineOf(b: string, line: string)
    requires NEWLINE !in b && NEWLINE !in line
    ensures Head(b + [NEWLINE] + line) == b && Others(b + [NEWLINE] + line) == [line]
  {
    var u := b + [NEWLINE] + line;
    assert u[|b|] == NEWLINE && IndexOfNewline(u) == |b|;
    assert u[..|b|] == b && u[|b| + 1..] == line;
    OneLine(line);
  }

  lemma {:induction false} TriedFirst(first: string, a: string)
    requires first == PREFIX + a && NEWLINE !in first
    ensures Set(BatchBodies([first])) == {a} && Tail(Flatten([first])) == first
  {
    OneLine(first);
    assert [first][..0] == [] && "" + first == first && Flatten([]) == "" && Flatten([first]) == first;
    assert Lines(first) == [first];
    OneBodyOnly(a, first);
    assert BatchBodies([first]) == [a];
  }

  // ---------------------------------------------------------------- the object

  function IndexOfNewline(text: string): (r: int)
    ensures -1 <= r < |text|
    ensures r >= 0 ==> text[r] == NEWLINE && NEWLINE !in text[..r]
    ensures r < 0 ==> NEWLINE !in text
  {
    if text == "" then -1
    else if text[0] == NEWLINE then 0
    else var r := IndexOfNewline(text[1..]); if r < 0 then -1 else r + 1
  }

  class Scanner {
    const parse: Parser
    const window: nat
    var found: Option<Status>
    var pending: string

    ghost function State(): Scan
      reads this
    {
      Scan(found, pending)
    }

    constructor (parse: Parser, window: nat)
      ensures State() == Start && this.parse == parse && this.window == window
    {
      this.parse, this.window, found, pending := parse, window, None, "";
    }

    method ScanLine(line: string)
      modifies `found
      ensures found == if old(found).Some? then old(found) else TryLine(parse, line)
    {
      if found.Some? || !(PREFIX <= line) { return; }
      found := parse(line[|PREFIX|..]);
    }

    method PushText(text: string)
      modifies this
      ensures State() == Push(parse, window, old(State()), text)
    {
      if found.Some? || text == "" { return; }
      pending := pending + text;
      ghost var all := pending;
      var nl := IndexOfNewline(pending);
      while nl >= 0 && found.None?
        invariant -1 <= nl < |pending| && (nl < 0 ==> NEWLINE !in pending)
        invariant nl >= 0 ==> pending[nl] == NEWLINE && NEWLINE !in pending[..nl]
        invariant found.Some? ==> Batch(parse, all) == found
        invariant found.None? ==> Batch(parse, all) == Batch(parse, pending) && Tail(all) == Tail(pending)
        decreases |pending|, found.None?
      {
        var line, rest := pending[..nl], pending[nl + 1..];
        BatchCut(parse, pending, nl);
        ScanLine(line);
        pending := rest;
        nl := IndexOfNewline(pending);
      }
      if found.None? {
        OneLine(pending);
        OneLineBatch(parse, pending);
        ScanLine(pending);
      }
      if found.Some? {
        pending := "";
        return;
      }
      if |pending| > window { pending := pending[|pending| - window..]; }
    }
  }

  lemma {:induction false} BatchCut(parse: Parser, text: string, nl: nat)
    requires nl < |text| && text[nl] == NEWLINE && NEWLINE !in text[..nl]
    ensures Tail(text) == Tail(text[nl + 1..])
    ensures var first := TryLine(parse, text[..nl]);
      Batch(parse, text) == if first.Some? then first else Batch(parse, text[nl + 1..])
  {
    CutFirstLine(text, nl);
    var line := text[..nl];
    assert Lines(text) == [line] + Lines(text[nl + 1..]);
    FirstConcat(parse, [line], Lines(text[nl + 1..]));
    assert [line][..0] == [];
  }
}
