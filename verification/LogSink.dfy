/** The daemon's size-capped log: a ring of whole lines, mirrored in a file that is rarely rewritten. */
module LogSink {

  /** How the host measures text in bytes, and what it decodes from the tail of an encoded text. */
  datatype Encoding = Encoding(bytes: string -> nat, tail: (string, nat) -> string) {
    ghost predicate Valid() {
      bytes("") == 0
    }
  }

  function Total(enc: Encoding, lines: seq<string>): nat {
    if lines == [] then 0 else enc.bytes(lines[0]) + Total(enc, lines[1..])
  }

  /** Drop characters off the front until the text fits. */
  function Shrink(enc: Encoding, line: string, max: nat): (r: string)
    requires enc.Valid()
    ensures enc.bytes(r) <= max
    decreases |line|
  {
    if enc.bytes(line) <= max || line == "" then line else Shrink(enc, line[1..], max)
  }

  /** A line that is too long by itself keeps its tail. */
  function Fitted(enc: Encoding, line: string, max: nat): (r: string)
    requires enc.Valid()
    ensures enc.bytes(r) <= max
    ensures enc.bytes(line) <= max ==> r == line
  {
    if enc.bytes(line) <= max then line else Shrink(enc, enc.tail(line, enc.bytes(line) - max), max)
  }

  /** What is kept of an overlong text is its longest suffix that fits. */
  lemma {:induction false} ShrinkIsLongestSuffix(enc: Encoding, line: string, max: nat, n: nat)
    requires enc.Valid() && n <= |line| && enc.bytes(line[|line| - n..]) <= max
    ensures var r := Shrink(enc, line, max); n <= |r| <= |line| && r == line[|line| - |r|..]
    decreases |line|
  {
    assert line[0..] == line;
    if !(enc.bytes(line) <= max || line == "") {
      assert line[1..][|line| - 1 - n..] == line[|line| - n..];
      ShrinkIsLongestSuffix(enc, line[1..], max, n);
    }
  }

  /** An overlong line keeps the longest suffix that fits of its last bytes, as many as the cap allows. */
  lemma OverlongKeepsItsTail(enc: Encoding, line: string, max: nat, n: nat)
    requires enc.Valid() && enc.bytes(line) > max
    requires var tail := enc.tail(line, enc.bytes(line) - max);
      n <= |tail| && enc.bytes(tail[|tail| - n..]) <= max
    ensures var tail, r := enc.tail(line, enc.bytes(line) - max), Fitted(enc, line, max);
      n <= |r| <= |tail| && r == tail[|tail| - |r|..]
  {
    ShrinkIsLongestSuffix(enc, enc.tail(line, enc.bytes(line) - max), max, n);
  }

  /** Drop the oldest whole lines until the rest fits. */
  function Trim(enc: Encoding, lines: seq<string>, max: nat): (r: seq<string>) {
    if lines == [] || Total(enc, lines) <= max then lines else Trim(enc, lines[1..], max)
  }

  lemma {:induction false} TotalConcat(enc: Encoding, a: seq<string>, b: seq<string>)
    ensures Total(enc, a + b) == Total(enc, a) + Total(enc, b)
  {
    if a == [] {
      assert a + b == b;
    } else {
      TotalConcat(enc, a[1..], b);
      assert (a + b)[1..] == a[1..] + b;
    }
  }

  /** What is kept is the longest suffix of whole lines that fits. */
  lemma {:induction false} TrimIsLongestSuffix(enc: Encoding, lines: seq<string>, max: nat, n: nat)
    requires n <= |lines| && Total(enc, lines[n..]) <= max
    ensures var kept := Trim(enc, lines, max);
      && Total(enc, kept) <= max
      && |kept| <= |lines| && kept == lines[|lines| - |kept|..]
      && |lines| - n <= |kept|
  {
    assert lines[0..] == lines;
    if lines != [] && Total(enc, lines) > max {
      assert lines[n..] == lines[1..][n - 1..];
      TrimIsLongestSuffix(enc, lines[1..], max, n - 1);
    }
  }

  /** Trimming before the next line arrives loses nothing that trimming afterwards would keep. */
  lemma {:induction false} TrimAsYouGo(enc: Encoding, lines: seq<string>, last: string, max: nat)
    ensures Trim(enc, Trim(enc, lines, max) + [last], max) == Trim(enc, lines + [last], max)
  {
    if lines != [] && Total(enc, lines) > max {
      TrimAsYouGo(enc, lines[1..], last, max);
      TotalConcat(enc, lines, [last]);
      assert (lines + [last])[1..] == lines[1..] + [last];
    }
  }

  class DaemonLog {
    const enc: Encoding
    const maxBytes: nat
    var lines: seq<string>
    var sizes: seq<nat>
    var ringBytes: nat
    var diskBytes: nat
    /** The file, write by write. */
    var file: seq<string>
    /** Every line ever appended, in its fitted form. */
    ghost var history: seq<string>

    ghost predicate Valid()
      reads this
    {
      && enc.Valid()
      && |sizes| == |lines| && (forall i :: 0 <= i < |lines| ==> sizes[i] == enc.bytes(lines[i]))
      && ringBytes == Total(enc, lines)
      && lines == Trim(enc, history, maxBytes)
      && diskBytes == Total(enc, file) <= maxBytes
    }

    /** The file mirrors the ring. */
    ghost predicate InStep()
      reads this
    {
      file == lines
    }

    constructor (enc: Encoding, maxBytes: nat)
      requires enc.Valid()
      ensures Valid() && InStep() && history == [] && this.enc == enc && this.maxBytes == maxBytes
    {
      this.enc, this.maxBytes := enc, maxBytes;
      lines, sizes, ringBytes, diskBytes, file, history := [], [], 0, 0, [], [];
    }

    /** Drop whole oldest lines until `bytes` more would fit. */
    method MakeRoom(bytes: nat)
      requires Valid() && bytes <= maxBytes
      modifies `lines, `sizes, `ringBytes
      ensures lines == Trim(enc, old(lines), maxBytes - bytes) && ringBytes == Total(enc, lines) <= maxBytes - bytes
      ensures |sizes| == |lines| && forall i :: 0 <= i < |lines| ==> sizes[i] == enc.bytes(lines[i])
    {
      while lines != [] && ringBytes + bytes > maxBytes
        invariant |sizes| == |lines| && (forall i :: 0 <= i < |lines| ==> sizes[i] == enc.bytes(lines[i]))
        invariant ringBytes == Total(enc, lines)
        invariant Trim(enc, lines, maxBytes - bytes) == Trim(enc, old(lines), maxBytes - bytes)
        decreases |lines|
      {
        ringBytes := ringBytes - sizes[0];
        sizes := sizes[1..];
        lines := lines[1..];
      }
    }

    /**
     * Append one line. `ok` says whether the write succeeds; a failed write leaves the file as it was.
     * The file never exceeds the cap; a ring and a file in step stay in step unless the write fails,
     * and a compaction that succeeds brings them back in step.
     */
    method Append(text: string, ok: bool)
      requires Valid()
      modifies this
      ensures Valid() && history == old(history) + [Fitted(enc, text, maxBytes)]
      ensures ok && old(InStep()) ==> InStep()
      ensures ok && old(diskBytes) + enc.bytes(Fitted(enc, text, maxBytes)) > maxBytes ==> InStep()
      ensures !ok ==> file == old(file)
    {
      var line := Fit(text);
      var bytes := enc.bytes(line);
      AddToRing(line, bytes);
      if ok { WriteOut(line, bytes); }
    }

    /** The ring makes room for the line and takes it in; with room to spare nothing is dropped. */
    method AddToRing(line: string, bytes: nat)
      requires Valid() && bytes == enc.bytes(line) <= maxBytes
      modifies `lines, `sizes, `ringBytes, `history
      ensures Valid() && history == old(history) + [line] && ringBytes <= maxBytes
      ensures old(ringBytes) + bytes <= maxBytes ==> lines == old(lines) + [line]
    {
      ghost var ring := lines;
      MakeRoom(bytes);
      history := history + [line];
      TrimAsYouGo(enc, old(history), line, maxBytes);
      RoomForOneMore(enc, ring, line, maxBytes);
      TotalConcat(enc, lines, [line]);
      lines := lines + [line];
      sizes := sizes + [bytes];
      ringBytes := ringBytes + bytes;
    }

    /** Append to the file, or rewrite it from the ring when it would outgrow the cap. */
    method WriteOut(line: string, bytes: nat)
      requires ringBytes == Total(enc, lines) <= maxBytes && diskBytes == Total(enc, file) && bytes == enc.bytes(line)
      modifies `file, `diskBytes
      ensures diskBytes == Total(enc, file) <= maxBytes
      ensures file == if old(diskBytes) + bytes > maxBytes then lines else old(file) + [line]
    {
      if diskBytes + bytes > maxBytes {
        file := lines;
        diskBytes := ringBytes;
      } else {
        TotalConcat(enc, file, [line]);
        file := file + [line];
        diskBytes := diskBytes + bytes;
      }
    }

    method Fit(text: string) returns (line: string)
      requires enc.Valid()
      ensures line == Fitted(enc, text, maxBytes)
    {
      line := text;
      var bytes := enc.bytes(line);
      if bytes > maxBytes {
        line := enc.tail(line, bytes - maxBytes);
        bytes := enc.bytes(line);
        while bytes > maxBytes && |line| > 0
          invariant bytes == enc.bytes(line)
          invariant Shrink(enc, line, maxBytes) == Fitted(enc, text, maxBytes)
          decreases |line|
        {
          line := line[1..];
          bytes := enc.bytes(line);
        }
      }
    }
  }

  /** Making room first and adding the line then is trimming the extended list. */
  lemma {:induction false} RoomForOneMore(enc: Encoding, lines: seq<string>, last: string, max: nat)
    requires enc.bytes(last) <= max
    ensures Trim(enc, lines + [last], max) == Trim(enc, lines, max - enc.bytes(last)) + [last]
  {
    TotalConcat(enc, lines, [last]);
    if lines != [] && Total(enc, lines) > max - enc.bytes(last) {
      RoomForOneMore(enc, lines[1..], last, max);
      assert (lines + [last])[1..] == lines[1..] + [last];
    }
  }

  /**
   * Seen from outside: after any appends whose writes succeed, the file is the longest whole-line
   * suffix of the fitted history that fits the cap.
   */
  lemma FileIsLongestSuffix(log: DaemonLog, n: nat)
    requires log.Valid() && log.InStep()
    requires n <= |log.history| && Total(log.enc, log.history[n..]) <= log.maxBytes
    ensures Total(log.enc, log.file) <= log.maxBytes
    ensures |log.history| - n <= |log.file| <= |log.history| && log.file == log.history[|log.history| - |log.file|..]
  {
    TrimIsLongestSuffix(log.enc, log.history, log.maxBytes, n);
  }
}
