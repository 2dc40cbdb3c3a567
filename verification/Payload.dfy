/**
 * The upload payload: one header line, then every file's bytes; encoded by the client, cut up
 * again and verified by the remote unpacker before it writes anything.
 *
 * `hash` stands for SHA-256 in hex, `show` and `parse` for the JSON printer and parser of the header.
 */
module Payload {
  import opened Chunks

  newtype byte = x: int | 0 <= x < 256

  const NEWLINE: byte := 10
  const BYTES_EXIT: int := 93
  const SHA_EXIT: int := 94
  const PTY_NODE: string := "build/Release/pty.node"

  /** A declared size as JSON delivers it: a number need not be whole. */
  datatype Size = NotANumber | Infinite | Finite(value: real)

  /** Missing or mistyped header fields: `path` is None, `sha` and `ptySha` are empty, `files` is None. */
  datatype RawFile = RawFile(path: Option<string>, size: Size, sha: string)
  datatype RawHeader = RawHeader(files: Option<seq<RawFile>>, ptySha: string)

  type Hash = seq<byte> -> string
  type Parser = seq<byte> -> Option<RawHeader>

  datatype File = File(path: string, bytes: seq<byte>, sha: string)
  datatype Piece = Piece(path: string, bytes: seq<byte>)
  datatype Outcome = Accepted(pieces: seq<Piece>) | Rejected(code: int)

  // ---------------------------------------------------------------- paths

  /** The parts of a path between slashes. */
  function Segments(p: string): (r: seq<string>)
    ensures |r| > 0
  {
    if p == "" then [""]
    else
      var before, last := Segments(p[..|p| - 1]), p[|p| - 1];
      if last == '/' then before + [""] else before[..|before| - 1] + [before[|before| - 1] + [last]]
  }

  predicate SafePath(p: string) {
    p != "" && p[0] != '/' && '\\' !in p && ".." !in Segments(p)
  }

  /** Where a path leads from a directory, on a system with slash-separated paths. */
  function Resolve(dir: seq<string>, segments: seq<string>): seq<string> {
    if segments == [] then dir
    else
      var at, last := Resolve(dir, segments[..|segments| - 1]), segments[|segments| - 1];
      if last == "" || last == "." then at
      else if last == ".." then (if at == [] then [] else at[..|at| - 1])
      else at + [last]
  }

  /** A safe path never leads out of the directory it is resolved in. */
  lemma {:induction false} SafeStaysInside(dir: seq<string>, segments: seq<string>)
    requires ".." !in segments
    ensures |dir| <= |Resolve(dir, segments)| && Resolve(dir, segments)[..|dir|] == dir
    decreases |segments|
  {
    if segments != [] {
      var front := segments[..|segments| - 1];
      assert forall s :: s in front ==> s in segments;
      assert segments[|segments| - 1] in segments;
      SafeStaysInside(dir, front);
    }
  }

  lemma UnpackedFilesStayInside(dir: seq<string>, p: string)
    requires SafePath(p)
    ensures dir <= Resolve(dir, Segments(p))
  {
    SafeStaysInside(dir, Segments(p));
  }

  // ---------------------------------------------------------------- encoding

  function Bodies(files: seq<File>): seq<byte> {
    if files == [] then [] else Bodies(files[..|files| - 1]) + files[|files| - 1].bytes
  }

  function Declared(files: seq<File>): seq<RawFile> {
    seq(|files|, i requires 0 <= i < |files| =>
      RawFile(Some(files[i].path), Finite(|files[i].bytes| as real), files[i].sha))
  }

  function HeaderOf(files: seq<File>, ptySha: string): RawHeader {
    RawHeader(Some(Declared(files)), ptySha)
  }

  /** None stands for the error thrown at an unsafe path. */
  function Encode(show: RawHeader -> seq<byte>, files: seq<File>, ptySha: string): Option<seq<byte>> {
    if exists i :: 0 <= i < |files| && !SafePath(files[i].path) then None
    else Some(show(HeaderOf(files, ptySha)) + [NEWLINE] + Bodies(files))
  }

  // ---------------------------------------------------------------- unpacking

  function NewlineFrom(body: seq<byte>, from: nat): (r: int)
    requires from <= |body|
    ensures r == -1 || from <= r < |body|
    ensures r >= 0 ==> body[r] == NEWLINE && forall i :: from <= i < r ==> body[i] != NEWLINE
    ensures r < 0 ==> forall i :: from <= i < |body| ==> body[i] != NEWLINE
    decreases |body| - from
  {
    if from == |body| then -1 else if body[from] == NEWLINE then from else NewlineFrom(body, from + 1)
  }

  /** The end of the header line, or -1. */
  function FirstNewline(body: seq<byte>): (r: int)
    ensures -1 <= r < |body|
    ensures r >= 0 ==> body[r] == NEWLINE && forall i :: 0 <= i < r ==> body[i] != NEWLINE
    ensures r < 0 ==> forall i :: 0 <= i < |body| ==> body[i] != NEWLINE
  {
    NewlineFrom(body, 0)
  }

  function FilesOf(header: RawHeader): seq<RawFile> {
    if header.files.None? then [] else header.files.value
  }

  predicate PathOk(f: RawFile) {
    f.path.Some? && SafePath(f.path.value)
  }

  predicate SizeOk(s: Size) {
    s.Finite? && s.value >= 0.0
  }

  datatype Cutting = Short | Cut(pieces: seq<Piece>, offset: real)

  /** The next declared file; a slice at a fractional offset starts at its whole part. */
  function CutNext(body: seq<byte>, before: Cutting, f: RawFile): (r: Cutting)
    requires before.Cut? ==> 0.0 <= before.offset <= |body| as real
    ensures r.Cut? ==> before.Cut? && |r.pieces| == |before.pieces| + 1 && before.offset <= r.offset <= |body| as real
  {
    if before.Short? || !SizeOk(f.size) || (|body| as real) - before.offset < f.size.value then Short
    else
      var end := before.offset + f.size.value;
      Cut(before.pieces + [Piece(if f.path.Some? then f.path.value else "", body[before.offset.Floor..end.Floor])], end)
  }

  /** Cut the declared files off the body one by one. */
  function CutUp(body: seq<byte>, start: nat, files: seq<RawFile>): (r: Cutting)
    requires start <= |body|
    ensures r.Cut? ==> |r.pieces| == |files| && start as real <= r.offset <= |body| as real
  {
    if files == [] then Cut([], start as real)
    else CutNext(body, CutUp(body, start, files[..|files| - 1]), files[|files| - 1])
  }

  predicate HashesOk(hash: Hash, pieces: seq<Piece>, files: seq<RawFile>)
    requires |pieces| == |files|
  {
    forall i :: 0 <= i < |pieces| ==> hash(pieces[i].bytes) == files[i].sha
  }

  function FirstPty(pieces: seq<Piece>): (r: int)
    ensures -1 <= r < |pieces|
  {
    if pieces == [] then -1
    else
      var r := FirstPty(pieces[..|pieces| - 1]);
      if r >= 0 then r else if pieces[|pieces| - 1].path == PTY_NODE then |pieces| - 1 else -1
  }

  /** It is the first piece of that name, or there is none. */
  lemma {:induction false} FirstPtyIs(pieces: seq<Piece>, k: int)
    requires -1 <= k < |pieces| && (k >= 0 ==> pieces[k].path == PTY_NODE)
    requires forall i :: 0 <= i < |pieces| && (i < k || k < 0) ==> pieces[i].path != PTY_NODE
    ensures FirstPty(pieces) == k
    decreases |pieces|
  {
    if pieces != [] {
      var n := |pieces| - 1;
      assert forall i :: 0 <= i < n ==> pieces[..n][i] == pieces[i];
      FirstPtyIs(pieces[..n], if k == n then -1 else k);
    }
  }

  lemma {:induction false} FirstPtyFits(pieces: seq<Piece>)
    ensures FirstPty(pieces) >= 0 ==> pieces[FirstPty(pieces)].path == PTY_NODE
    decreases |pieces|
  {
    if pieces != [] { FirstPtyFits(pieces[..|pieces| - 1]); }
  }

  /** The hash checks that follow a complete cut. */
  function Verify(hash: Hash, pieces: seq<Piece>, files: seq<RawFile>, ptySha: string): Outcome
    requires |pieces| == |files|
  {
    if !HashesOk(hash, pieces, files) then Rejected(SHA_EXIT)
    else
      var k := FirstPty(pieces);
      if k < 0 then Rejected(BYTES_EXIT)
      else if hash(pieces[k].bytes) != ptySha then Rejected(SHA_EXIT)
      else Accepted(pieces)
  }

  predicate PathsOk(files: seq<RawFile>) {
    forall i :: 0 <= i < |files| ==> PathOk(files[i])
  }

  /** The cut, no byte left over, the hash checks. */
  function JudgeCut(hash: Hash, body: seq<byte>, start: nat, files: seq<RawFile>, ptySha: string): Outcome
    requires start <= |body|
  {
    var cut := CutUp(body, start, files);
    if cut.Short? || cut.offset != |body| as real then Rejected(BYTES_EXIT) else Verify(hash, cut.pieces, files, ptySha)
  }

  /** The header line: where it ends and what it says, unless it is missing, unreadable or names an unsafe path. */
  datatype Front = Unusable | Front(end: nat, header: RawHeader)

  function ReadFront(parse: Parser, body: seq<byte>): (r: Front)
    ensures r.Front? ==> r.end == FirstNewline(body) && r.end < |body|
  {
    var nl := FirstNewline(body);
    if nl < 0 then Unusable
    else
      var header := parse(body[..nl]);
      if header.None? || !PathsOk(FilesOf(header.value)) then Unusable else Front(nl, header.value)
  }

  /** The checks behind the header line. */
  function Receive(front: Front, hash: Hash, body: seq<byte>): Outcome
    requires front.Front? ==> front.end < |body|
  {
    if front.Unusable? then Rejected(BYTES_EXIT)
    else JudgeCut(hash, body, front.end + 1, FilesOf(front.header), front.header.ptySha)
  }

  /** Everything the unpacker checks before its first write. */
  function Unpack(parse: Parser, hash: Hash, body: seq<byte>): Outcome {
    Receive(ReadFront(parse, body), hash, body)
  }

  // ---------------------------------------------------------------- length

  function Total(files: seq<RawFile>): real
    requires forall i :: 0 <= i < |files| ==> SizeOk(files[i].size)
  {
    if files == [] then 0.0
    else
      assert SizeOk(files[|files| - 1].size);
      Total(files[..|files| - 1]) + files[|files| - 1].size.value
  }

  /** A cut succeeds exactly when every size is usable and the body is long enough for all of them together. */
  lemma {:induction false} CutSucceedsIff(body: seq<byte>, start: nat, files: seq<RawFile>)
    requires start <= |body|
    ensures CutUp(body, start, files).Cut? <==>
      (forall i :: 0 <= i < |files| ==> SizeOk(files[i].size)) && start as real + Total(files) <= |body| as real
    ensures CutUp(body, start, files).Cut? ==> CutUp(body, start, files).offset == start as real + Total(files)
    decreases |files|
  {
    if files != [] {
      var front := files[..|files| - 1];
      CutSucceedsIff(body, start, front);
      if CutUp(body, start, files).Cut? {
        assert forall i :: 0 <= i < |files| ==> (i < |front| && files[i] == front[i]) || i == |files| - 1;
      }
    }
  }

  function JoinPieces(pieces: seq<Piece>): seq<byte> {
    if pieces == [] then [] else JoinPieces(pieces[..|pieces| - 1]) + pieces[|pieces| - 1].bytes
  }

  lemma Adjacent(body: seq<byte>, a: nat, b: nat, c: nat)
    requires a <= b <= c <= |body|
    ensures body[a..b] + body[b..c] == body[a..c]
  {
  }

  /** The pieces lie side by side from the start to the final offset. */
  lemma {:induction false} PiecesTile(body: seq<byte>, start: nat, files: seq<RawFile>)
    requires start <= |body|
    ensures var r := CutUp(body, start, files); r.Cut? ==> JoinPieces(r.pieces) == body[start..r.offset.Floor]
    decreases |files|
  {
    if files != [] {
      PiecesTile(body, start, files[..|files| - 1]);
      NextTiles(body, start, CutUp(body, start, files[..|files| - 1]), files[|files| - 1]);
    }
  }

  lemma {:induction false} NextTiles(body: seq<byte>, start: nat, before: Cutting, f: RawFile)
    requires start <= |body| && (before.Cut? ==> start as real <= before.offset <= |body| as real)
    requires before.Cut? ==> JoinPieces(before.pieces) == body[start..before.offset.Floor]
    ensures var r := CutNext(body, before, f); r.Cut? ==> JoinPieces(r.pieces) == body[start..r.offset.Floor]
  {
    var r := CutNext(body, before, f);
    if r.Cut? {
      assert r.pieces[..|r.pieces| - 1] == before.pieces;
      Adjacent(body, start, before.offset.Floor, r.offset.Floor);
    }
  }

  lemma {:induction false} PiecesAreNamed(body: seq<byte>, start: nat, files: seq<RawFile>)
    requires start <= |body|
    ensures var r := CutUp(body, start, files);
      r.Cut? ==> forall i :: 0 <= i < |files| && files[i].path.Some? ==> r.pieces[i].path == files[i].path.value
    decreases |files|
  {
    var r := CutUp(body, start, files);
    if files != [] && r.Cut? {
      var n := |files| - 1;
      PiecesAreNamed(body, start, files[..n]);
      assert forall i :: 0 <= i < n ==>
        files[i] == files[..n][i] && r.pieces[i] == CutUp(body, start, files[..n]).pieces[i];
    }
  }

  lemma {:induction false} JudgedIsExact(hash: Hash, body: seq<byte>, start: nat, files: seq<RawFile>, ptySha: string)
    requires start <= |body| && JudgeCut(hash, body, start, files, ptySha).Accepted?
    ensures var pieces := JudgeCut(hash, body, start, files, ptySha).pieces;
      && |pieces| == |files| && JoinPieces(pieces) == body[start..]
      && (forall i :: 0 <= i < |files| && files[i].path.Some? ==> files[i].path.value == pieces[i].path)
      && (forall i :: 0 <= i < |pieces| ==> hash(pieces[i].bytes) == files[i].sha)
      && exists k :: 0 <= k < |pieces| && pieces[k].path == PTY_NODE && hash(pieces[k].bytes) == ptySha
  {
    var cut := CutUp(body, start, files);
    PiecesTile(body, start, files);
    PiecesAreNamed(body, start, files);
    assert cut.offset.Floor == |body| && body[start..|body|] == body[start..];
    VerifiedIsExact(hash, cut.pieces, files, ptySha);
  }

  lemma {:induction false} VerifiedIsExact(hash: Hash, pieces: seq<Piece>, files: seq<RawFile>, ptySha: string)
    requires |pieces| == |files| && Verify(hash, pieces, files, ptySha).Accepted?
    ensures Verify(hash, pieces, files, ptySha).pieces == pieces
    ensures forall i :: 0 <= i < |pieces| ==> hash(pieces[i].bytes) == files[i].sha
    ensures exists k :: 0 <= k < |pieces| && pieces[k].path == PTY_NODE && hash(pieces[k].bytes) == ptySha
  {
    FirstPtyFits(pieces);
    assert FirstPty(pieces) >= 0;
  }

  /** The native module is among the pieces, with the announced hash. */
  ghost predicate HasModule(hash: Hash, pieces: seq<Piece>, ptySha: string) {
    exists k :: 0 <= k < |pieces| && pieces[k].path == PTY_NODE && hash(pieces[k].bytes) == ptySha
  }

  /**
   * What acceptance guarantees: the pieces carry the declared names in order, tile everything after
   * the header line exactly, and each has the declared hash; the native module is among them.
   */
  lemma {:induction false} ReceivedIsExact(front: Front, hash: Hash, body: seq<byte>)
    requires front.Front? ==> front.end < |body|
    requires Receive(front, hash, body).Accepted?
    ensures front.Front?
    ensures var pieces, files := Receive(front, hash, body).pieces, FilesOf(front.header);
      && JoinPieces(pieces) == body[front.end + 1..] && |pieces| == |files|
      && (forall i :: 0 <= i < |files| && files[i].path.Some? ==> files[i].path.value == pieces[i].path)
      && (forall i :: 0 <= i < |pieces| ==> hash(pieces[i].bytes) == files[i].sha)
      && HasModule(hash, pieces, front.header.ptySha)
  {
    JudgedIsExact(hash, body, front.end + 1, FilesOf(front.header), front.header.ptySha);
  }

  /** A usable header line was read from the first line, and every name in it is safe. */
  lemma {:induction false} UsableFrontIsSafe(parse: Parser, body: seq<byte>)
    requires ReadFront(parse, body).Front?
    ensures var front := ReadFront(parse, body);
      parse(body[..front.end]) == Some(front.header) && body[front.end] == NEWLINE && NEWLINE !in body[..front.end]
    ensures var files := FilesOf(ReadFront(parse, body).header);
      forall i :: 0 <= i < |files| ==> files[i].path.Some? && SafePath(files[i].path.value)
  {
    var files := FilesOf(ReadFront(parse, body).header);
    forall i | 0 <= i < |files| ensures files[i].path.Some? && SafePath(files[i].path.value) {
      assert PathOk(files[i]);
    }
  }

  lemma {:induction false} JudgedLength(hash: Hash, body: seq<byte>, other: seq<byte>, start: nat,
      files: seq<RawFile>, ptySha: string)
    requires start <= |body| && start <= |other| && |body| != |other|
    requires JudgeCut(hash, body, start, files, ptySha).Accepted?
    ensures JudgeCut(hash, other, start, files, ptySha) == Rejected(BYTES_EXIT)
  {
    CutSucceedsIff(body, start, files);
    CutSucceedsIff(other, start, files);
  }

  lemma {:induction false} ReceivedLength(front: Front, hash: Hash, body: seq<byte>, other: seq<byte>)
    requires front.Front? ==> front.end < |body| && front.end < |other|
    requires Receive(front, hash, body).Accepted? && |other| != |body|
    ensures Receive(front, hash, other) == Rejected(BYTES_EXIT)
  {
    JudgedLength(hash, body, other, front.end + 1, FilesOf(front.header), front.header.ptySha);
  }

  /** Two bodies with the same header line and different lengths are never both accepted. */
  lemma {:induction false} LengthIsDetermined(parse: Parser, hash: Hash, body: seq<byte>, other: seq<byte>)
    requires Unpack(parse, hash, body).Accepted? && |other| != |body|
    requires ReadFront(parse, other) == ReadFront(parse, body)
    ensures Unpack(parse, hash, other) == Rejected(BYTES_EXIT)
  {
    ReceivedLength(ReadFront(parse, body), hash, body, other);
  }

  lemma {:induction false} SameNewline(body: seq<byte>, other: seq<byte>)
    requires 0 <= FirstNewline(body) < |other|
    requires forall i :: 0 <= i < |other| && i < |body| ==> other[i] == body[i]
    ensures FirstNewline(other) == FirstNewline(body) && other[..FirstNewline(body)] == body[..FirstNewline(body)]
  {
  }

  lemma {:induction false} ShortOfTheNewline(body: seq<byte>, other: seq<byte>)
    requires |other| <= FirstNewline(body)
    requires forall i :: 0 <= i < |other| && i < |body| ==> other[i] == body[i]
    ensures FirstNewline(other) < 0
  {
  }

  /** Any truncation and any appended byte turns an accepted payload into one rejected with the byte-count exit. */
  lemma {:induction false} TruncatedOrExtendedIsRejected(parse: Parser, hash: Hash, body: seq<byte>, other: seq<byte>)
    requires Unpack(parse, hash, body).Accepted?
    requires |other| != |body| && forall i :: 0 <= i < |other| && i < |body| ==> other[i] == body[i]
    ensures Unpack(parse, hash, other) == Rejected(BYTES_EXIT)
  {
    if |other| > FirstNewline(body) {
      SameNewline(body, other);
      LengthIsDetermined(parse, hash, body, other);
    } else {
      ShortOfTheNewline(body, other);
    }
  }

  // ---------------------------------------------------------------- the verdict

  /** A front is usable exactly when there is a header line that can be read and names safe paths only. */
  lemma UsableFrontIff(parse: Parser, body: seq<byte>)
    ensures var nl := FirstNewline(body);
      ReadFront(parse, body) ==
        if nl >= 0 && parse(body[..nl]).Some? && PathsOk(FilesOf(parse(body[..nl]).value))
        then Front(nl, parse(body[..nl]).value) else Unusable
  {
  }

  /** The front is usable, and the declared sizes add up to exactly what follows it. */
  ghost predicate Fits(front: Front, body: seq<byte>) {
    && front.Front?
    && var files := FilesOf(front.header);
    && (forall i :: 0 <= i < |files| ==> SizeOk(files[i].size))
    && (front.end + 1) as real + Total(files) == |body| as real
  }

  /** What the checks behind the cut decide. */
  ghost predicate Decides(hash: Hash, header: RawHeader, pieces: seq<Piece>, outcome: Outcome) {
    var files, k := FilesOf(header), FirstPty(pieces);
    && |pieces| == |files|
    && outcome ==
         if exists i :: 0 <= i < |files| && hash(pieces[i].bytes) != files[i].sha then Rejected(SHA_EXIT)
         else if k < 0 then Rejected(BYTES_EXIT)
         else if hash(pieces[k].bytes) != header.ptySha then Rejected(SHA_EXIT)
         else Accepted(pieces)
  }

  lemma VerifyDecides(hash: Hash, header: RawHeader, pieces: seq<Piece>)
    requires |pieces| == |FilesOf(header)|
    ensures Decides(hash, header, pieces, Verify(hash, pieces, FilesOf(header), header.ptySha))
  {
  }

  /** The cut uses up the body exactly when the front fits. */
  lemma CutFits(front: Front, body: seq<byte>)
    requires front.Front? && front.end < |body|
    ensures var cut := CutUp(body, front.end + 1, FilesOf(front.header));
      Fits(front, body) <==> cut.Cut? && cut.offset == |body| as real
  {
    CutSucceedsIff(body, front.end + 1, FilesOf(front.header));
  }

  lemma ReceiveUnfolds(front: Front, hash: Hash, body: seq<byte>)
    requires front.Front? && front.end < |body|
    ensures var cut := CutUp(body, front.end + 1, FilesOf(front.header));
      Receive(front, hash, body) ==
        if cut.Cut? && cut.offset == |body| as real then
          Verify(hash, cut.pieces, FilesOf(front.header), front.header.ptySha)
        else Rejected(BYTES_EXIT)
  {
  }

  lemma ReceiveDecides(front: Front, hash: Hash, body: seq<byte>)
    requires front.Front? ==> front.end < |body|
    ensures !Fits(front, body) ==> Receive(front, hash, body) == Rejected(BYTES_EXIT)
    ensures Fits(front, body) ==>
      var cut := CutUp(body, front.end + 1, FilesOf(front.header));
      cut.Cut? && Decides(hash, front.header, cut.pieces, Receive(front, hash, body))
  {
    if front.Front? {
      CutFits(front, body);
      ReceiveUnfolds(front, hash, body);
      var cut := CutUp(body, front.end + 1, FilesOf(front.header));
      if cut.Cut? { VerifyDecides(hash, front.header, cut.pieces); }
    }
  }

  /**
   * The whole decision: the byte-count exit for anything that does not fit and for a missing native
   * module, the checksum exit for a wrong hash, and acceptance of the pieces cut otherwise.
   */
  lemma UnpackDecides(parse: Parser, hash: Hash, body: seq<byte>)
    ensures var front, outcome := ReadFront(parse, body), Unpack(parse, hash, body);
      && (!Fits(front, body) ==> outcome == Rejected(BYTES_EXIT))
      && (Fits(front, body) ==>
            var cut := CutUp(body, front.end + 1, FilesOf(front.header));
            cut.Cut? && Decides(hash, front.header, cut.pieces, outcome))
  {
    ReceiveDecides(ReadFront(parse, body), hash, body);
  }

  /** Some segment between slashes is "..". */
  ghost predicate ClimbsAt(p: string, i: nat) {
    && i + 2 <= |p| && p[i] == '.' && p[i + 1] == '.'
    && (i == 0 || p[i - 1] == '/') && (i + 2 == |p| || p[i + 2] == '/')
  }

  ghost predicate Climbs(p: string) {
    exists i: nat :: ClimbsAt(p, i)
  }

  ghost predicate ClimbsEarly(p: string) {
    exists i: nat :: i + 2 < |p| && ClimbsAt(p, i)
  }

  /** A path that may not travel: empty, absolute, with a backslash, or climbing. */
  ghost predicate Unsafe(p: string) {
    p == "" || p[0] == '/' || (exists i :: 0 <= i < |p| && p[i] == '\\') || Climbs(p)
  }

  /** The last segment is what follows the last slash; ".." before it is one that a slash follows. */
  ghost predicate Tell(r: seq<string>, p: string) {
    && r != [] && var last := r[|r| - 1];
    && |last| <= |p| && last == p[|p| - |last|..] && '/' !in last
    && (|last| < |p| ==> p[|p| - |last| - 1] == '/')
    && (".." in r[..|r| - 1] <==> ClimbsEarly(p))
  }

  lemma SlashTells(before: seq<string>, front: string)
    requires Tell(before, front)
    ensures Tell(before + [""], front + ['/'])
  {
    var r, last := before + [""], before[|before| - 1];
    assert r[..|r| - 1] == before && before == before[..|before| - 1] + [last];
    LastSegmentClimbs(front, last);
    EarlierClimbs(front + ['/'], front);
  }

  lemma OtherTells(before: seq<string>, front: string, c: char)
    requires Tell(before, front) && c != '/'
    ensures Tell(before[..|before| - 1] + [before[|before| - 1] + [c]], front + [c])
  {
    var r := before[..|before| - 1] + [before[|before| - 1] + [c]];
    assert r[..|r| - 1] == before[..|before| - 1];
    EarlierClimbs(front + [c], front);
  }

  lemma {:induction false} SegmentsTell(p: string)
    ensures Tell(Segments(p), p)
    decreases |p|
  {
    if p != "" {
      var front, c := p[..|p| - 1], p[|p| - 1];
      assert p == front + [c];
      SegmentsTell(front);
      if c == '/' { SlashTells(Segments(front), front); } else { OtherTells(Segments(front), front, c); }
    }
  }

  lemma LastSegmentClimbs(p: string, last: string)
    requires |last| <= |p| && last == p[|p| - |last|..] && '/' !in last && (|last| < |p| ==> p[|p| - |last| - 1] == '/')
    ensures last == ".." <==> |p| >= 2 && ClimbsAt(p, |p| - 2)
  {
    assert |last| > 2 ==> last[|last| - 3] == p[|p| - 3] && last[|last| - 3] in last;
  }

  /** Climbing places of a text and of the text before its last character. */
  lemma EarlierClimbs(p: string, front: string)
    requires p != "" && front == p[..|p| - 1]
    ensures ClimbsEarly(p) <==>
      ClimbsEarly(front) || (p[|p| - 1] == '/' && |front| >= 2 && ClimbsAt(front, |front| - 2))
  {
    forall i: nat | i + 2 < |front| ensures ClimbsAt(p, i) <==> ClimbsAt(front, i) {}
    if |front| >= 2 { assert ClimbsAt(p, |front| - 2) <==> p[|p| - 1] == '/' && ClimbsAt(front, |front| - 2); }
    if i: nat :| i + 2 < |p| && ClimbsAt(p, i) { assert i + 2 < |front| || i == |front| - 2; }
  }

  lemma ParentSegmentIff(p: string)
    ensures ".." in Segments(p) <==> Climbs(p)
  {
    SegmentsTell(p);
    var r := Segments(p);
    LastSegmentClimbs(p, r[|r| - 1]);
    InFrontOrLast(r, "..");
    EarlyOrAtTheEnd(p);
  }

  lemma EarlyOrAtTheEnd(p: string)
    ensures Climbs(p) <==> ClimbsEarly(p) || (|p| >= 2 && ClimbsAt(p, |p| - 2))
  {
    if Climbs(p) {
      var i: nat :| ClimbsAt(p, i);
      if i + 2 == |p| { assert ClimbsAt(p, |p| - 2); } else { assert i + 2 < |p| && ClimbsAt(p, i); }
    }
    if ClimbsEarly(p) {
      var i: nat :| i + 2 < |p| && ClimbsAt(p, i);
    }
  }

  lemma InFrontOrLast(r: seq<string>, x: string)
    requires r != []
    ensures x in r <==> x in r[..|r| - 1] || x == r[|r| - 1]
  {
    assert r == r[..|r| - 1] + [r[|r| - 1]];
  }

  /** The check refuses exactly the paths that may not travel. */
  lemma SafePathIff(p: string)
    ensures SafePath(p) <==> !Unsafe(p)
  {
    ParentSegmentIff(p);
  }

  /** Neither side lets an unsafe path through: the client sends nothing, the unpacker writes nothing. */
  lemma UnsafePathsAreRefused(show: RawHeader -> seq<byte>, parse: Parser, hash: Hash, files: seq<File>, ptySha: string,
      body: seq<byte>)
    ensures (exists i :: 0 <= i < |files| && Unsafe(files[i].path)) <==> Encode(show, files, ptySha).None?
    ensures var nl := FirstNewline(body);
      nl >= 0 && parse(body[..nl]).Some?
      && (exists f :: f in FilesOf(parse(body[..nl]).value) && (f.path.None? || Unsafe(f.path.value))) ==>
      Unpack(parse, hash, body) == Rejected(BYTES_EXIT)
  {
    forall i | 0 <= i < |files| ensures SafePath(files[i].path) <==> !Unsafe(files[i].path) {
      SafePathIff(files[i].path);
    }
    var nl := FirstNewline(body);
    if nl >= 0 && parse(body[..nl]).Some? {
      var declared := FilesOf(parse(body[..nl]).value);
      if f :| f in declared && (f.path.None? || Unsafe(f.path.value)) {
        if f.path.Some? { SafePathIff(f.path.value); }
        var i :| 0 <= i < |declared| && declared[i] == f;
        assert !PathOk(declared[i]);
      }
    }
  }

  // ---------------------------------------------------------------- round trip

  function PiecesOf(files: seq<File>): seq<Piece> {
    seq(|files|, i requires 0 <= i < |files| => Piece(files[i].path, files[i].bytes))
  }

  /** Cutting a body that starts with an encoding gives the encoded files back, whatever follows. */
  lemma {:induction false} CutEncoded(body: seq<byte>, head: seq<byte>, files: seq<File>)
    requires |head + Bodies(files)| <= |body| && body[..|head + Bodies(files)|] == head + Bodies(files)
    ensures CutUp(body, |head|, Declared(files)) == Cut(PiecesOf(files), |head + Bodies(files)| as real)
    decreases |files|
  {
    if files != [] {
      var front, last := files[..|files| - 1], files[|files| - 1];
      assert head + Bodies(files) == head + Bodies(front) + last.bytes;
      Encodings(body, head + Bodies(front), last.bytes);
      CutEncoded(body, head, front);
      DeclaredSnoc(files);
      CutWhole(body, PiecesOf(front), |head + Bodies(front)|, last);
    }
  }

  lemma Encodings(body: seq<byte>, front: seq<byte>, last: seq<byte>)
    requires |front + last| <= |body| && body[..|front + last|] == front + last
    ensures body[..|front|] == front && body[|front|..|front + last|] == last
  {
    assert body[..|front|] == body[..|front + last|][..|front|];
    assert body[|front|..|front + last|] == body[..|front + last|][|front|..];
  }

  lemma DeclaredSnoc(files: seq<File>)
    requires files != []
    ensures var front, last := files[..|files| - 1], files[|files| - 1];
      && Declared(files)[..|files| - 1] == Declared(front)
      && Declared(files)[|files| - 1] == RawFile(Some(last.path), Finite(|last.bytes| as real), last.sha)
      && PiecesOf(files) == PiecesOf(front) + [Piece(last.path, last.bytes)]
  {
  }

  lemma {:induction false} CutWhole(body: seq<byte>, pieces: seq<Piece>, from: nat, f: File)
    requires from + |f.bytes| <= |body| && body[from..from + |f.bytes|] == f.bytes
    ensures CutNext(body, Cut(pieces, from as real), RawFile(Some(f.path), Finite(|f.bytes| as real), f.sha)) ==
      Cut(pieces + [Piece(f.path, f.bytes)], (from + |f.bytes|) as real)
  {
    assert (from as real) + (|f.bytes| as real) == (from + |f.bytes|) as real;
  }

  /**
   * The remote end accepts an encoded file list, and unpacks exactly that list, if and only if every
   * hash is right, the native module is in it, and the first of that name has the announced hash.
   * A wrong hash gives the hash exit, a missing module the byte-count exit.
   */
  lemma RoundTripIff(show: RawHeader -> seq<byte>, parse: Parser, hash: Hash, files: seq<File>, ptySha: string)
    requires Encode(show, files, ptySha).Some?
    requires var header := HeaderOf(files, ptySha); parse(show(header)) == Some(header) && NEWLINE !in show(header)
    ensures Unpack(parse, hash, Encode(show, files, ptySha).value) == Verdict(hash, files, ptySha)
  {
    var header := HeaderOf(files, ptySha);
    var line := show(header);
    var sent := line + [NEWLINE] + Bodies(files);
    NewlineAt(line, Bodies(files));
    assert sent[..|line|] == line;
    assert ReadFront(parse, sent) == Front(|line|, header);
    DeclaredPathsOk(files);
    JudgeEncoded(hash, line + [NEWLINE], files, ptySha);
  }

  /** The verdict on a list that arrived whole. */
  function Verdict(hash: Hash, files: seq<File>, ptySha: string): Outcome {
    var honest := forall i :: 0 <= i < |files| ==> hash(files[i].bytes) == files[i].sha;
    var k := FirstPty(PiecesOf(files));
    if honest && k >= 0 && hash(files[k].bytes) == ptySha then Accepted(PiecesOf(files))
    else if honest && k < 0 then Rejected(BYTES_EXIT)
    else Rejected(SHA_EXIT)
  }

  lemma {:induction false} JudgeEncoded(hash: Hash, head: seq<byte>, files: seq<File>, ptySha: string)
    ensures JudgeCut(hash, head + Bodies(files), |head|, Declared(files), ptySha) == Verdict(hash, files, ptySha)
  {
    CutEncoded(head + Bodies(files), head, files);
    VerifyEncoded(hash, files, ptySha);
  }

  lemma {:induction false} DeclaredPathsOk(files: seq<File>)
    requires forall i :: 0 <= i < |files| ==> SafePath(files[i].path)
    ensures PathsOk(Declared(files))
  {
  }

  lemma {:induction false} VerifyEncoded(hash: Hash, files: seq<File>, ptySha: string)
    ensures Verify(hash, PiecesOf(files), Declared(files), ptySha) == Verdict(hash, files, ptySha)
  {
    HashesAgree(hash, files);
  }

  lemma HashesAgree(hash: Hash, files: seq<File>)
    ensures HashesOk(hash, PiecesOf(files), Declared(files)) <==>
      forall i :: 0 <= i < |files| ==> hash(files[i].bytes) == files[i].sha
  {
    if HashesOk(hash, PiecesOf(files), Declared(files)) {
      forall i | 0 <= i < |files| ensures hash(files[i].bytes) == files[i].sha {
        assert hash(PiecesOf(files)[i].bytes) == Declared(files)[i].sha;
      }
    }
  }

  lemma NewlineAt(line: seq<byte>, rest: seq<byte>)
    requires NEWLINE !in line
    ensures FirstNewline(line + [NEWLINE] + rest) == |line|
  {
    var body := line + [NEWLINE] + rest;
    assert body[|line|] == NEWLINE;
    assert forall i :: 0 <= i < |line| ==> body[i] == line[i] && line[i] in line;
  }

  // ---------------------------------------------------------------- fractional sizes

  predicate Whole(r: real) {
    r.Floor as real == r
  }

  ghost predicate AllWhole(files: seq<RawFile>) {
    forall i :: 0 <= i < |files| ==> SizeOk(files[i].size) && Whole(files[i].size.value)
  }

  ghost predicate AllAsDeclared(pieces: seq<Piece>, files: seq<RawFile>)
    requires |pieces| == |files|
  {
    forall i :: 0 <= i < |files| ==> files[i].size == Finite(|pieces[i].bytes| as real)
  }

  /** Every piece has as many bytes as declared exactly when all declared sizes are whole. */
  lemma SizesAreByteCountsIff(body: seq<byte>, start: nat, files: seq<RawFile>)
    requires start <= |body| && CutUp(body, start, files).Cut?
    ensures AllAsDeclared(CutUp(body, start, files).pieces, files) <==> AllWhole(files)
  {
    CutSucceedsIff(body, start, files);
    var pieces := CutUp(body, start, files).pieces;
    if AllWhole(files) { WholeSizesAreByteCounts(body, start, files); }
    if AllAsDeclared(pieces, files) {
      forall i | 0 <= i < |files| ensures SizeOk(files[i].size) && Whole(files[i].size.value) {
        assert files[i].size == Finite(|pieces[i].bytes| as real);
      }
    }
  }

  lemma {:induction false} WholeSizesAreByteCounts(body: seq<byte>, start: nat, files: seq<RawFile>)
    requires start <= |body| && CutUp(body, start, files).Cut? && AllWhole(files)
    ensures AllAsDeclared(CutUp(body, start, files).pieces, files) && Whole(CutUp(body, start, files).offset)
    decreases |files|
  {
    if files != [] {
      var n := |files| - 1;
      var pieces, before := CutUp(body, start, files).pieces, CutUp(body, start, files[..n]);
      WholeSizesAreByteCounts(body, start, files[..n]);
      WholeSum(before.offset, files[n].size.value);
      assert forall i :: 0 <= i < n ==> files[i] == files[..n][i] && pieces[i] == before.pieces[i];
      assert |pieces[n].bytes| == files[n].size.value.Floor;
    }
  }

  lemma WholeSum(a: real, b: real)
    requires Whole(a) && Whole(b)
    ensures (a + b).Floor == a.Floor + b.Floor && Whole(a + b)
  {
    assert a + b == (a.Floor + b.Floor) as real;
  }

  /** For instance: two files of half a byte each are accepted as one empty file and one of one byte. */
  lemma HalfBytesAreAccepted(parse: Parser, hash: Hash, line: seq<byte>, x: byte)
    requires NEWLINE !in line
    requires parse(line) == Some(RawHeader(Some([RawFile(Some(PTY_NODE), Finite(0.5), hash([])),
                                                RawFile(Some("a"), Finite(0.5), hash([x]))]), hash([])))
    ensures Unpack(parse, hash, line + [NEWLINE] + [x]) == Accepted([Piece(PTY_NODE, []), Piece("a", [x])])
  {
    var body := line + [NEWLINE] + [x];
    var files := [RawFile(Some(PTY_NODE), Finite(0.5), hash([])), RawFile(Some("a"), Finite(0.5), hash([x]))];
    NewlineAt(line, [x]);
    LineAndRest(line, x);
    CutHalves(body, |line| + 1, files);
    PathsAreSafe();
    var pieces := [Piece(PTY_NODE, []), Piece("a", [x])];
    assert pieces[..1] == [pieces[0]] && FirstPty(pieces[..1]) == 0;
  }

  lemma LineAndRest(line: seq<byte>, x: byte)
    ensures var body := line + [NEWLINE] + [x];
      body[..|line|] == line && body[|line| + 1..] == [x] && |body| == |line| + 2
  {
  }

  lemma {:induction false} CutHalves(body: seq<byte>, start: nat, files: seq<RawFile>)
    requires start + 1 == |body| && |files| == 2
    requires files[0].size == Finite(0.5) && files[1].size == Finite(0.5) && files[0].path.Some? && files[1].path.Some?
    ensures CutUp(body, start, files) ==
      Cut([Piece(files[0].path.value, []), Piece(files[1].path.value, body[start..])], |body| as real)
  {
    var s := start as real;
    assert (s + 0.5).Floor == start && (s + 1.0).Floor == start + 1 && s.Floor == start;
    var one := files[..1];
    assert one[..|one| - 1] == [] && one[|one| - 1] == files[0] && body[start..start] == [];
    assert CutUp(body, start, []) == Cut([], s);
    assert files[..|files| - 1] == one && CutUp(body, start, one) == Cut([Piece(files[0].path.value, [])], s + 0.5);
    assert body[start..start + 1] == body[start..];
  }

  ghost predicate NoPair(s: string) {
    forall i :: 0 < i < |s| ==> !(s[i - 1] == '.' && s[i] == '.')
  }

  lemma {:induction false} NoPairNoParent(p: string)
    requires NoPair(p)
    ensures ".." !in Segments(p)
    ensures forall s :: s in Segments(p) ==> NoPair(s)
    ensures var last := Segments(p)[|Segments(p)| - 1]; |last| <= |p| && last == p[|p| - |last|..]
    decreases |p|
  {
    SegmentsTell(p);
    if p != "" {
      NoPairNoParent(p[..|p| - 1]);
      var before := Segments(p[..|p| - 1]);
      var last := before[|before| - 1];
      assert last in before;
    }
    var parent := "..";
    assert parent[0] == '.' && parent[1] == '.' && !NoPair(parent);
  }

  lemma SafeWithoutPair(p: string)
    requires p != "" && p[0] != '/' && '\\' !in p && NoPair(p)
    ensures SafePath(p)
  {
    NoPairNoParent(p);
  }

  lemma PathsAreSafe()
    ensures SafePath(PTY_NODE) && SafePath("a")
  {
    SafeWithoutPair(PTY_NODE);
    SafeWithoutPair("a");
  }

  // ---------------------------------------------------------------- the unpacker's loops

  /** Find and parse the header line, and check every path in it. */
  method OpenPayload(parse: Parser, body: seq<byte>) returns (front: Front)
    ensures front == ReadFront(parse, body)
  {
    var nl := FirstNewline(body);
    if nl < 0 { return Unusable; }
    var header := parse(body[..nl]);
    if header.None? { return Unusable; }
    var files := FilesOf(header.value);
    for i := 0 to |files|
      invariant forall j :: 0 <= j < i ==> PathOk(files[j])
    {
      if !PathOk(files[i]) { return Unusable; }
    }
    front := Front(nl, header.value);
  }

  /** The cut, no byte left over, the hash checks. */
  method JudgeBody(hash: Hash, body: seq<byte>, start: nat, files: seq<RawFile>, ptySha: string)
    returns (r: Outcome)
    requires start <= |body| && forall i :: 0 <= i < |files| ==> files[i].path.Some?
    ensures r == JudgeCut(hash, body, start, files, ptySha)
  {
    var cut := CutPieces(body, start, files);
    if cut.Short? || cut.offset != |body| as real { return Rejected(BYTES_EXIT); }
    r := CheckPieces(hash, cut.pieces, files, ptySha);
  }

  method CutPieces(body: seq<byte>, start: nat, files: seq<RawFile>) returns (r: Cutting)
    requires start <= |body| && forall i :: 0 <= i < |files| ==> files[i].path.Some?
    ensures r == CutUp(body, start, files)
  {
    var offset, pieces := start as real, [];
    for j := 0 to |files|
      invariant CutUp(body, start, files[..j]) == Cut(pieces, offset)
    {
      CutStep(body, start, files, j);
      var size := files[j].size;
      if !SizeOk(size) || (|body| as real) - offset < size.value {
        ShortStaysShort(body, start, files, j + 1);
        return Short;
      }
      pieces := pieces + [Piece(files[j].path.value, body[offset.Floor..(offset + size.value).Floor])];
      offset := offset + size.value;
    }
    assert files[..|files|] == files;
    r := Cut(pieces, offset);
  }

  lemma {:induction false} CutStep(body: seq<byte>, start: nat, files: seq<RawFile>, j: nat)
    requires start <= |body| && j < |files|
    ensures CutUp(body, start, files[..j + 1]) == CutNext(body, CutUp(body, start, files[..j]), files[j])
  {
    var upTo := files[..j + 1];
    assert upTo[..|upTo| - 1] == files[..j] && upTo[|upTo| - 1] == files[j];
  }

  lemma {:induction false} ShortStaysShort(body: seq<byte>, start: nat, files: seq<RawFile>, n: nat)
    requires start <= |body| && n <= |files| && CutUp(body, start, files[..n]).Short?
    ensures CutUp(body, start, files).Short?
    decreases |files| - n
  {
    if n == |files| {
      assert files[..n] == files;
    } else {
      CutStep(body, start, files, n);
      ShortStaysShort(body, start, files, n + 1);
    }
  }

  method CheckPieces(hash: Hash, pieces: seq<Piece>, files: seq<RawFile>, ptySha: string) returns (r: Outcome)
    requires |pieces| == |files|
    ensures r == Verify(hash, pieces, files, ptySha)
  {
    for s := 0 to |pieces|
      invariant forall i :: 0 <= i < s ==> hash(pieces[i].bytes) == files[i].sha
    {
      if hash(pieces[s].bytes) != files[s].sha { return Rejected(SHA_EXIT); }
    }
    var k := 0;
    while k < |pieces| && pieces[k].path != PTY_NODE
      invariant 0 <= k <= |pieces| && forall i :: 0 <= i < k ==> pieces[i].path != PTY_NODE
    {
      k := k + 1;
    }
    FirstPtyIs(pieces, if k == |pieces| then -1 else k);
    if k == |pieces| { return Rejected(BYTES_EXIT); }
    r := if hash(pieces[k].bytes) != ptySha then Rejected(SHA_EXIT) else Accepted(pieces);
  }
}
