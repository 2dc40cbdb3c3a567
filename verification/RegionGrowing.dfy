/** Growing the background inward from the border of an image. */
module RegionGrowing {
  import opened Reachability

  datatype Rgb = Rgb(r: int, g: int, b: int)

  /** An image with at least one pixel, stored flat and row by row. */
  datatype Image = Image(grid: Grid, px: seq<Rgb>) {
    predicate Valid() {
      grid.w > 0 && grid.h > 0 && |px| == grid.w * grid.h
    }

    function At(p: Pos): Rgb
      requires Valid() && grid.Has(p)
    {
      px[grid.Index(p)]
    }
  }

  function Abs(n: int): nat {
    if n < 0 then -n else n
  }

  function Difference(a: Rgb, b: Rgb): nat {
    Abs(a.r - b.r) + Abs(a.g - b.g) + Abs(a.b - b.b)
  }

  predicate OnBorder(grid: Grid, p: Pos) {
    grid.Has(p) && (p.0 == 0 || p.0 == grid.w - 1 || p.1 == 0 || p.1 == grid.h - 1)
  }

  /** A step the growth may take: to a neighbour whose colour differs by at most the threshold. */
  ghost function Steps(img: Image, thresh: int): (step: (Pos, Pos) -> bool)
    requires img.Valid()
  {
    (p: Pos, q: Pos) =>
      img.grid.Has(p) && img.grid.Has(q) && Neighbours(p, q) && Difference(img.At(q), img.At(p)) <= thresh
  }

  /** What is background: reachable from the border in such steps. */
  ghost predicate Background(img: Image, thresh: int, q: Pos)
    requires img.Valid()
  {
    exists p :: OnBorder(img.grid, p) && Reaches(Steps(img, thresh), p, q)
  }

  datatype Entry = Entry(p: Pos, ref: Rgb)

  /** The buffer marks exactly the pixels of the log. */
  ghost predicate Marks(grid: Grid, bg: array<bool>, log: seq<Pos>)
    reads bg
  {
    && bg.Length == grid.w * grid.h && Marked(log) <= grid.All()
    && forall p: Pos :: grid.Has(p) ==> (bg[grid.Index(p)] <==> p in log)
  }

  ghost predicate Queued(q: seq<Entry>, p: Pos) {
    exists e :: e in q && e.p == p
  }

  /** The growth so far: everything marked is background, queued once, and finished unless queued. */
  ghost predicate Growing(img: Image, thresh: int, log: seq<Pos>, q: seq<Entry>)
    requires img.Valid()
  {
    && NoRepeats(log)
    && (forall p :: p in log ==> img.grid.Has(p) && Background(img, thresh, p))
    && (forall e :: e in q ==> e.p in log && e.ref == img.At(e.p))
    && (forall p, n :: p in log && !Queued(q, p) && Steps(img, thresh)(p, n) ==> n in log)
  }

  /** Look at one pixel: mark and queue it if it is new and close enough to the reference colour. */
  method Consider(img: Image, thresh: int, bg: array<bool>, ghost log: seq<Pos>, q: seq<Entry>, p: Pos, ref: Rgb)
    returns (q': seq<Entry>, ghost log': seq<Pos>)
    requires img.Valid() && img.grid.Has(p) && Marks(img.grid, bg, log)
    modifies bg
    ensures Marks(img.grid, bg, log')
    ensures if p !in log && Difference(img.At(p), ref) <= thresh
            then log' == log + [p] && q' == q + [Entry(p, img.At(p))]
            else log' == log && q' == q
  {
    q', log' := q, log;
    var i := img.grid.Index(p);
    if bg[i] { return; }
    var colour := img.px[i];
    if Difference(colour, ref) <= thresh {
      bg[i] := true;
      q' := q + [Entry(p, colour)];
      log' := log + [p];
      forall o: Pos | img.grid.Has(o) ensures bg[img.grid.Index(o)] <==> o in log' {
        if img.grid.Index(o) == i { img.grid.IndexInjective(o, p); }
      }
    }
  }

  /** One more background pixel, queued. */
  lemma PushKeepsGrowing(img: Image, thresh: int, log: seq<Pos>, q: seq<Entry>, p: Pos)
    requires img.Valid() && Growing(img, thresh, log, q) && img.grid.Has(p) && p !in log && Background(img, thresh, p)
    ensures Growing(img, thresh, log + [p], q + [Entry(p, img.At(p))])
  {
    var q' := q + [Entry(p, img.At(p))];
    assert Entry(p, img.At(p)) in q';
    forall o | Queued(q, o) ensures Queued(q', o) {
      var e :| e in q && e.p == o;
      assert e in q';
    }
  }

  /** Seed one border pixel against its own colour. */
  method Seed(img: Image, thresh: int, bg: array<bool>, ghost log: seq<Pos>, q: seq<Entry>, p: Pos)
    returns (q': seq<Entry>, ghost log': seq<Pos>)
    requires img.Valid() && OnBorder(img.grid, p) && Marks(img.grid, bg, log) && Growing(img, thresh, log, q)
    modifies bg
    ensures Marks(img.grid, bg, log') && Growing(img, thresh, log', q')
    ensures Within(log, log') && (thresh >= 0 ==> p in log') && (thresh < 0 ==> log' == log && q' == q)
  {
    if p !in log && thresh >= 0 {
      ReachesItself(Steps(img, thresh), p);
      PushKeepsGrowing(img, thresh, log, q, p);
    }
    q', log' := Consider(img, thresh, bg, log, q, p, img.px[img.grid.Index(p)]);
  }

  /** The seeded part of the border: of the top and bottom rows, and of the side columns. */
  ghost predicate RowsSeeded(grid: Grid, log: seq<Pos>, columns: nat) {
    forall x :: 0 <= x < columns ==> (x, 0) in log && (x, grid.h - 1) in log
  }

  ghost predicate SidesSeeded(grid: Grid, log: seq<Pos>, rows: nat) {
    forall y :: 0 <= y < rows ==> (0, y) in log && (grid.w - 1, y) in log
  }

  ghost predicate Seeded(grid: Grid, thresh: int, log: seq<Pos>) {
    if thresh < 0 then log == [] else RowsSeeded(grid, log, grid.w) && SidesSeeded(grid, log, grid.h)
  }

  method SeedRows(img: Image, thresh: int, bg: array<bool>) returns (q: seq<Entry>, ghost log: seq<Pos>)
    requires img.Valid() && Marks(img.grid, bg, [])
    modifies bg
    ensures Marks(img.grid, bg, log) && Growing(img, thresh, log, q)
    ensures if thresh < 0 then log == [] && q == [] else RowsSeeded(img.grid, log, img.grid.w)
  {
    q, log := [], [];
    for x := 0 to img.grid.w
      invariant Marks(img.grid, bg, log) && Growing(img, thresh, log, q)
      invariant if thresh < 0 then log == [] && q == [] else RowsSeeded(img.grid, log, x)
    {
      q, log := Seed(img, thresh, bg, log, q, (x, 0));
      q, log := Seed(img, thresh, bg, log, q, (x, img.grid.h - 1));
    }
  }

  method SeedSides(img: Image, thresh: int, bg: array<bool>, q0: seq<Entry>, ghost log0: seq<Pos>)
    returns (q: seq<Entry>, ghost log: seq<Pos>)
    requires img.Valid() && Marks(img.grid, bg, log0) && Growing(img, thresh, log0, q0)
    modifies bg
    ensures Marks(img.grid, bg, log) && Growing(img, thresh, log, q) && Within(log0, log)
    ensures if thresh < 0 then log == log0 && q == q0 else SidesSeeded(img.grid, log, img.grid.h)
  {
    q, log := q0, log0;
    for y := 0 to img.grid.h
      invariant Marks(img.grid, bg, log) && Growing(img, thresh, log, q) && Within(log0, log)
      invariant if thresh < 0 then log == log0 && q == q0 else SidesSeeded(img.grid, log, y)
    {
      ghost var before := log;
      q, log := SeedEnds(img, thresh, bg, log, q, y);
      if thresh >= 0 { SidesGrow(img.grid, before, log, y); }
    }
  }

  /** The two ends of row `y`. */
  method SeedEnds(img: Image, thresh: int, bg: array<bool>, ghost log0: seq<Pos>, q0: seq<Entry>, y: nat)
    returns (q: seq<Entry>, ghost log: seq<Pos>)
    requires img.Valid() && y < img.grid.h && Marks(img.grid, bg, log0) && Growing(img, thresh, log0, q0)
    modifies bg
    ensures Marks(img.grid, bg, log) && Growing(img, thresh, log, q) && Within(log0, log)
    ensures if thresh < 0 then log == log0 && q == q0 else (0, y) in log && (img.grid.w - 1, y) in log
  {
    q, log := Seed(img, thresh, bg, log0, q0, (0, y));
    q, log := Seed(img, thresh, bg, log, q, (img.grid.w - 1, y));
  }

  lemma SidesGrow(grid: Grid, before: seq<Pos>, log: seq<Pos>, y: nat)
    requires SidesSeeded(grid, before, y) && Within(before, log) && (0, y) in log && (grid.w - 1, y) in log
    ensures SidesSeeded(grid, log, y + 1)
  {
  }

  lemma BorderIsSeeded(img: Image, log: seq<Pos>, p: Pos)
    requires img.Valid() && RowsSeeded(img.grid, log, img.grid.w) && SidesSeeded(img.grid, log, img.grid.h)
    requires OnBorder(img.grid, p)
    ensures p in log
  {
    if p.1 == 0 {
      assert p == (p.0, 0);
    } else if p.1 == img.grid.h - 1 {
      assert (p.0, 0) in log && p == (p.0, img.grid.h - 1);
    } else if p.0 == 0 {
      assert p == (0, p.1);
    } else {
      assert (0, p.1) in log && p == (img.grid.w - 1, p.1);
    }
  }

  // ---------------------------------------------------------------- growing

  /** Looking at a neighbour of a background pixel, if the image has it, against that pixel's colour. */
  method Spread(img: Image, thresh: int, bg: array<bool>, ghost log: seq<Pos>, q: seq<Entry>, from: Entry, n: Pos)
    returns (q': seq<Entry>, ghost log': seq<Pos>)
    requires img.Valid() && Marks(img.grid, bg, log)
    requires img.grid.Has(from.p) && Neighbours(from.p, n) && from.p in log && from.ref == img.At(from.p)
    requires GrowingBut(img, thresh, log, q, from.p)
    modifies bg
    ensures Marks(img.grid, bg, log') && GrowingBut(img, thresh, log', q', from.p)
    ensures Within(log, log') && Seen(img, thresh, log', from.p, n)
    ensures |q'| - |q| == |log'| - |log| >= 0
  {
    q', log' := q, log;
    if !img.grid.Has(n) { return; }
    if n !in log && Difference(img.At(n), from.ref) <= thresh {
      BackgroundSpreads(img, thresh, from.p, n);
      PushKeepsGrowingBut(img, thresh, log, q, from.p, n);
    }
    q', log' := Consider(img, thresh, bg, log, q, n, from.ref);
  }

  /** As `Growing`, while the neighbours of `open` are still being looked at. */
  ghost predicate GrowingBut(img: Image, thresh: int, log: seq<Pos>, q: seq<Entry>, open: Pos)
    requires img.Valid()
  {
    && NoRepeats(log)
    && (forall p :: p in log ==> img.grid.Has(p) && Background(img, thresh, p))
    && (forall e :: e in q ==> e.p in log && e.ref == img.At(e.p))
    && (forall p, n :: p in log && p != open && !Queued(q, p) && Steps(img, thresh)(p, n) ==> n in log)
  }

  lemma BackgroundSpreads(img: Image, thresh: int, p: Pos, n: Pos)
    requires img.Valid() && Background(img, thresh, p) && Steps(img, thresh)(p, n)
    ensures Background(img, thresh, n)
  {
    var seed :| OnBorder(img.grid, seed) && Reaches(Steps(img, thresh), seed, p);
    ReachesOneFurther(Steps(img, thresh), seed, p, n);
  }

  lemma PushKeepsGrowingBut(img: Image, thresh: int, log: seq<Pos>, q: seq<Entry>, open: Pos, p: Pos)
    requires img.Valid() && GrowingBut(img, thresh, log, q, open)
    requires img.grid.Has(p) && p !in log && Background(img, thresh, p)
    ensures GrowingBut(img, thresh, log + [p], q + [Entry(p, img.At(p))], open)
  {
    var q' := q + [Entry(p, img.At(p))];
    assert Entry(p, img.At(p)) in q';
    forall o | Queued(q, o) ensures Queued(q', o) {
      var e :| e in q && e.p == o;
      assert e in q';
    }
  }

  lemma TakeFirst(img: Image, thresh: int, log: seq<Pos>, q: seq<Entry>)
    requires img.Valid() && Growing(img, thresh, log, q) && q != []
    ensures GrowingBut(img, thresh, log, q[1..], q[0].p)
    ensures q[0].p in log && q[0].ref == img.At(q[0].p) && img.grid.Has(q[0].p)
  {
    assert q[0] in q;
    forall o | Queued(q, o) && o != q[0].p ensures Queued(q[1..], o) {
      var e :| e in q && e.p == o;
      assert e in q[1..];
    }
  }

  /** All four neighbours looked at: the pixel is finished. */
  lemma Finished(img: Image, thresh: int, log: seq<Pos>, q: seq<Entry>, p: Pos)
    requires img.Valid() && GrowingBut(img, thresh, log, q, p) && img.grid.Has(p)
    requires forall n :: Steps(img, thresh)(p, n) ==> n in log
    ensures Growing(img, thresh, log, q)
  {
  }

  /**
   * The whole growth: the buffer marks exactly the background pixels, and `queued` shows that each
   * of them, and nothing else, was put into the queue once.
   */
  method GrowBackground(img: Image, thresh: int) returns (bg: array<bool>, ghost queued: seq<Pos>)
    requires img.Valid()
    ensures fresh(bg) && bg.Length == img.grid.w * img.grid.h
    ensures forall p: Pos :: img.grid.Has(p) ==> (bg[img.grid.Index(p)] <==> thresh >= 0 && Background(img, thresh, p))
    ensures NoRepeats(queued) && forall p :: p in queued <==> img.grid.Has(p) && bg[img.grid.Index(p)]
  {
    bg := new bool[img.grid.w * img.grid.h](_ => false);
    var q;
    q, queued := SeedRows(img, thresh, bg);
    q, queued := SeedSides(img, thresh, bg, q, queued);
    assert Seeded(img.grid, thresh, queued);
    queued := Drain(img, thresh, bg, q, queued);
    assert Seeded(img.grid, thresh, queued);
    GrowthIsComplete(img, thresh, queued);
  }

  /** Visit queued pixels until there are none: every visit either finishes a pixel or marks new ones. */
  method Drain(img: Image, thresh: int, bg: array<bool>, q0: seq<Entry>, ghost log0: seq<Pos>)
    returns (ghost log: seq<Pos>)
    requires img.Valid() && Marks(img.grid, bg, log0) && Growing(img, thresh, log0, q0)
    requires thresh < 0 ==> q0 == []
    modifies bg
    ensures Marks(img.grid, bg, log) && Growing(img, thresh, log, []) && Within(log0, log)
    ensures thresh < 0 ==> log == log0
  {
    var q := q0;
    log := log0;
    LogFits(img.grid, log);
    while q != []
      invariant Marks(img.grid, bg, log) && Growing(img, thresh, log, q) && Within(log0, log)
      invariant thresh < 0 ==> log == log0 && q == []
      invariant |log| <= |img.grid.All()|
      decreases |img.grid.All()| - |log|, |q|
    {
      q, log := Visit(img, thresh, bg, log, q);
      LogFits(img.grid, log);
    }
  }

  /** Take the first queued pixel and look at its four neighbours. */
  method Visit(img: Image, thresh: int, bg: array<bool>, ghost log: seq<Pos>, q: seq<Entry>)
    returns (q': seq<Entry>, ghost log': seq<Pos>)
    requires img.Valid() && Marks(img.grid, bg, log) && Growing(img, thresh, log, q) && q != []
    modifies bg
    ensures Marks(img.grid, bg, log') && Growing(img, thresh, log', q')
    ensures Within(log, log') && |q'| - (|q| - 1) == |log'| - |log| >= 0
  {
    TakeFirst(img, thresh, log, q);
    var e := q[0];
    q', log' := q[1..], log;
    var (x, y) := e.p;
    q', log' := Spread(img, thresh, bg, log', q', e, (x - 1, y));
    q', log' := Spread(img, thresh, bg, log', q', e, (x + 1, y));
    q', log' := Spread(img, thresh, bg, log', q', e, (x, y - 1));
    q', log' := Spread(img, thresh, bg, log', q', e, (x, y + 1));
    FourNeighbours(img, thresh, log', e.p);
    Finished(img, thresh, log', q', e.p);
  }

  ghost predicate Seen(img: Image, thresh: int, log: seq<Pos>, p: Pos, n: Pos)
    requires img.Valid()
  {
    Steps(img, thresh)(p, n) ==> n in log
  }

  lemma FourNeighbours(img: Image, thresh: int, log: seq<Pos>, p: Pos)
    requires img.Valid()
    requires Seen(img, thresh, log, p, (p.0 - 1, p.1)) && Seen(img, thresh, log, p, (p.0 + 1, p.1))
    requires Seen(img, thresh, log, p, (p.0, p.1 - 1)) && Seen(img, thresh, log, p, (p.0, p.1 + 1))
    ensures forall n :: Steps(img, thresh)(p, n) ==> n in log
  {
    forall n | Steps(img, thresh)(p, n) ensures n in log {
      assert n == (n.0, n.1);
      assert n in [(p.0 - 1, p.1), (p.0 + 1, p.1), (p.0, p.1 - 1), (p.0, p.1 + 1)];
    }
  }

  /** With an empty queue the marked set is closed, so it is all of the background. */
  lemma GrowthIsComplete(img: Image, thresh: int, log: seq<Pos>)
    requires img.Valid() && Growing(img, thresh, log, []) && Seeded(img.grid, thresh, log)
    ensures forall p :: p in log <==> thresh >= 0 && Background(img, thresh, p)
  {
    forall p | thresh >= 0 && Background(img, thresh, p) ensures p in log {
      var seed :| OnBorder(img.grid, seed) && Reaches(Steps(img, thresh), seed, p);
      BorderIsSeeded(img, log, seed);
      LogIsClosed(img, thresh, log);
      ClosedHoldsReach(Steps(img, thresh), Marked(log), seed, p);
    }
  }

  lemma LogIsClosed(img: Image, thresh: int, log: seq<Pos>)
    requires img.Valid() && Growing(img, thresh, log, [])
    ensures Closed(Steps(img, thresh), Marked(log))
  {
  }
}
