/** Keeping the largest foreground component of a mask. */
module LargestComponent {
  import opened Reachability

  /** A mask, stored flat and row by row; a pixel is foreground from 128 up. */
  datatype Mask = Mask(grid: Grid, px: seq<nat>) {
    predicate Valid() {
      |px| == grid.w * grid.h
    }

    predicate Foreground(p: Pos)
      requires Valid()
    {
      grid.Has(p) && px[grid.Index(p)] >= 128
    }
  }

  ghost function Steps(m: Mask): (step: (Pos, Pos) -> bool)
    requires m.Valid()
  {
    (p: Pos, q: Pos) => m.Foreground(p) && m.Foreground(q) && Neighbours(p, q)
  }

  /** The 4-connected foreground component of a pixel. */
  ghost function Component(m: Mask, s: Pos): (c: set<Pos>)
    requires m.Valid()
  {
    set p | p in m.grid.All() && Reaches(Steps(m), s, p)
  }

  lemma ComponentIsForeground(m: Mask, s: Pos, p: Pos)
    requires m.Valid() && m.Foreground(s) && Reaches(Steps(m), s, p)
    ensures m.Foreground(p)
  {
    var path :| Joins(Steps(m), s, path, p);
    if |path| > 1 { assert Steps(m)(path[|path| - 2], path[|path| - 1]); }
  }

  lemma SameComponent(m: Mask, s: Pos, p: Pos)
    requires m.Valid() && Reaches(Steps(m), s, p)
    ensures Component(m, p) == Component(m, s)
  {
    var path :| Joins(Steps(m), s, path, p);
    ReachesBack(Steps(m), s, path, p);
    forall q | q in m.grid.All() ensures q in Component(m, p) <==> q in Component(m, s) {
      if Reaches(Steps(m), p, q) { ReachesThrough(Steps(m), s, p, q); }
      if Reaches(Steps(m), s, q) { ReachesThrough(Steps(m), p, s, q); }
    }
  }

  /** Scan order. */
  predicate Before(p: Pos, q: Pos) {
    p.1 < q.1 || (p.1 == q.1 && p.0 < q.0)
  }

  ghost predicate Marks(grid: Grid, seen: array<bool>, marked: set<Pos>)
    reads seen
  {
    && seen.Length == grid.w * grid.h
    && forall p: Pos :: grid.Has(p) ==> (seen[grid.Index(p)] <==> p in marked)
  }

  method Mark(grid: Grid, seen: array<bool>, ghost marked: set<Pos>, p: Pos)
    requires grid.Has(p) && Marks(grid, seen, marked)
    modifies seen
    ensures Marks(grid, seen, marked + {p})
  {
    var i := grid.Index(p);
    seen[i] := true;
    forall o: Pos | grid.Has(o) ensures seen[grid.Index(o)] <==> o in marked + {p} {
      if grid.Index(o) == i { grid.IndexInjective(o, p); }
    }
  }

  // ---------------------------------------------------------------- one component

  /** The search from `s`: `comp` is finished, `q` is found but not finished, `done` was there before. */
  ghost predicate Searching(m: Mask, s: Pos, done: set<Pos>, comp: seq<Pos>, q: seq<Pos>)
    requires m.Valid()
  {
    && NoRepeats(comp + q) && s in comp + q
    && (forall p :: p in comp + q ==> m.Foreground(p) && Reaches(Steps(m), s, p) && p !in done)
    && (forall p, n :: p in comp && Steps(m)(p, n) ==> n in comp + q)
  }

  /** As `Searching`, with the neighbours of the newest member of `comp` still being looked at. */
  ghost predicate Expanding(m: Mask, s: Pos, done: set<Pos>, comp: seq<Pos>, q: seq<Pos>)
    requires m.Valid()
  {
    && comp != [] && NoRepeats(comp + q) && s in comp + q
    && (forall p :: p in comp + q ==> m.Foreground(p) && Reaches(Steps(m), s, p) && p !in done)
    && (forall p, n :: p in comp[..|comp| - 1] && Steps(m)(p, n) ==> n in comp + q)
  }

  lemma PopKeeps(m: Mask, s: Pos, done: set<Pos>, comp: seq<Pos>, q: seq<Pos>)
    requires m.Valid() && Searching(m, s, done, comp, q) && q != []
    ensures Expanding(m, s, done, comp + [q[0]], q[1..])
    ensures (comp + [q[0]]) + q[1..] == comp + q
  {
    assert (comp + [q[0]]) + q[1..] == comp + q;
    assert (comp + [q[0]])[..|comp|] == comp;
  }

  lemma PushKeeps(m: Mask, s: Pos, done: set<Pos>, comp: seq<Pos>, q: seq<Pos>, n: Pos)
    requires m.Valid() && Expanding(m, s, done, comp, q) && n !in comp + q && n !in done
    requires Steps(m)(comp[|comp| - 1], n)
    ensures Expanding(m, s, done, comp, q + [n])
  {
    assert comp + (q + [n]) == (comp + q) + [n];
    assert comp[|comp| - 1] in comp + q;
    ReachesOneFurther(Steps(m), s, comp[|comp| - 1], n);
  }

  /** Look at a neighbour of the newest member: mark and queue it if it is new foreground. */
  method Look(m: Mask, seen: array<bool>, ghost s: Pos, ghost done: set<Pos>, comp: seq<Pos>, q: seq<Pos>, n: Pos)
    returns (q': seq<Pos>)
    requires m.Valid() && Expanding(m, s, done, comp, q) && Closed(Steps(m), done)
    requires Marks(m.grid, seen, done + Marked(comp + q)) && Neighbours(comp[|comp| - 1], n)
    modifies seen
    ensures Expanding(m, s, done, comp, q') && Marks(m.grid, seen, done + Marked(comp + q'))
    ensures Within(q, q') && (Steps(m)(comp[|comp| - 1], n) ==> n in comp + q')
  {
    q' := q;
    if !m.grid.Has(n) { return; }
    var j := m.grid.Index(n);
    if !seen[j] && m.px[j] >= 128 {
      assert comp[|comp| - 1] in comp + q;
      PushKeeps(m, s, done, comp, q, n);
      Mark(m.grid, seen, done + Marked(comp + q), n);
      q' := q + [n];
      assert Marked(comp + q') == Marked(comp + q) + {n};
    } else {
      NotInDone(m, s, done, comp, q, n);
    }
  }

  /** Closed earlier components cannot hold a neighbour of this one. */
  lemma NotInDone(m: Mask, s: Pos, done: set<Pos>, comp: seq<Pos>, q: seq<Pos>, n: Pos)
    requires m.Valid() && Expanding(m, s, done, comp, q) && Closed(Steps(m), done)
    ensures Steps(m)(comp[|comp| - 1], n) ==> n !in done
  {
    var p := comp[|comp| - 1];
    assert p in comp + q;
    if Steps(m)(p, n) { assert Steps(m)(n, p); }
  }

  /** With all four neighbours looked at, the newest member is finished too. */
  lemma Expanded(m: Mask, s: Pos, done: set<Pos>, comp: seq<Pos>, beside: seq<Pos>, q: seq<Pos>)
    requires m.Valid() && Expanding(m, s, done, comp, q) && Within(beside, q)
    requires var (x, y) := comp[|comp| - 1];
      && (Steps(m)((x, y), (x - 1, y)) ==> (x - 1, y) in comp + beside)
      && (Steps(m)((x, y), (x + 1, y)) ==> (x + 1, y) in comp + beside)
      && (Steps(m)((x, y), (x, y - 1)) ==> (x, y - 1) in comp + q)
      && (Steps(m)((x, y), (x, y + 1)) ==> (x, y + 1) in comp + q)
    ensures Searching(m, s, done, comp, q)
  {
    var p := comp[|comp| - 1];
    forall n | Steps(m)(p, n) ensures n in comp + q {
      StillFound(comp, beside, q, n);
      assert n in [(p.0 - 1, p.1), (p.0 + 1, p.1), (p.0, p.1 - 1), (p.0, p.1 + 1)] by { assert n == (n.0, n.1); }
    }
    assert comp == comp[..|comp| - 1] + [p];
  }

  method Expand(m: Mask, seen: array<bool>, ghost s: Pos, ghost done: set<Pos>, comp: seq<Pos>, q: seq<Pos>)
    returns (q': seq<Pos>)
    requires m.Valid() && Expanding(m, s, done, comp, q) && Closed(Steps(m), done)
    requires Marks(m.grid, seen, done + Marked(comp + q))
    modifies seen
    ensures Searching(m, s, done, comp, q') && Marks(m.grid, seen, done + Marked(comp + q'))
  {
    var (x, y) := comp[|comp| - 1];
    q' := LookAtTwo(m, seen, s, done, comp, q, (x - 1, y), (x + 1, y));
    ghost var beside := q';
    q' := LookAtTwo(m, seen, s, done, comp, q', (x, y - 1), (x, y + 1));
    Expanded(m, s, done, comp, beside, q');
  }

  method LookAtTwo(m: Mask, seen: array<bool>, ghost s: Pos, ghost done: set<Pos>, comp: seq<Pos>, q: seq<Pos>,
                   a: Pos, b: Pos) returns (q': seq<Pos>)
    requires m.Valid() && Expanding(m, s, done, comp, q) && Closed(Steps(m), done)
    requires Marks(m.grid, seen, done + Marked(comp + q))
    requires Neighbours(comp[|comp| - 1], a) && Neighbours(comp[|comp| - 1], b)
    modifies seen
    ensures Expanding(m, s, done, comp, q') && Marks(m.grid, seen, done + Marked(comp + q')) && Within(q, q')
    ensures Steps(m)(comp[|comp| - 1], a) ==> a in comp + q'
    ensures Steps(m)(comp[|comp| - 1], b) ==> b in comp + q'
  {
    q' := Look(m, seen, s, done, comp, q, a);
    ghost var first := q';
    q' := Look(m, seen, s, done, comp, q', b);
    StillFound(comp, first, q', a);
  }

  lemma StillFound(comp: seq<Pos>, q: seq<Pos>, q': seq<Pos>, n: Pos)
    requires Within(q, q')
    ensures n in comp + q ==> n in comp + q'
  {
  }

  /** The component of `s`, each pixel once; the buffer now marks it too. */
  method Flood(m: Mask, seen: array<bool>, ghost done: set<Pos>, s: Pos) returns (comp: seq<Pos>)
    requires m.Valid() && m.Foreground(s) && s !in done && Closed(Steps(m), done) && Marks(m.grid, seen, done)
    modifies seen
    ensures NoRepeats(comp) && Marked(comp) == Component(m, s) && |comp| == |Component(m, s)|
    ensures Marks(m.grid, seen, done + Component(m, s))
  {
    comp := [];
    var q := [s];
    ReachesItself(Steps(m), s);
    Mark(m.grid, seen, done, s);
    assert Marked(comp + q) == {s};
    LogFits(m.grid, comp + q);
    while q != []
      invariant Searching(m, s, done, comp, q) && Marks(m.grid, seen, done + Marked(comp + q))
      invariant |comp + q| <= |m.grid.All()|
      decreases |m.grid.All()| - |comp|
    {
      PopKeeps(m, s, done, comp, q);
      comp, q := comp + [q[0]], q[1..];
      q := Expand(m, seen, s, done, comp, q);
      LogFits(m.grid, comp + q);
    }
    assert comp + q == comp;
    SearchIsComplete(m, s, done, comp);
    DistinctCount(comp);
  }

  lemma SearchIsComplete(m: Mask, s: Pos, done: set<Pos>, comp: seq<Pos>)
    requires m.Valid() && Searching(m, s, done, comp, [])
    ensures Marked(comp) == Component(m, s)
  {
    assert comp + [] == comp;
    assert Closed(Steps(m), Marked(comp));
    forall p | p in Component(m, s) ensures p in Marked(comp) { ClosedHoldsReach(Steps(m), Marked(comp), s, p); }
  }

  // ---------------------------------------------------------------- the scan

  /** Everything scanned so far is accounted for, component by component. */
  ghost predicate Scanned(m: Mask, done: set<Pos>, next: Pos)
    requires m.Valid()
  {
    && Closed(Steps(m), done)
    && (forall p :: p in done ==> m.Foreground(p) && Component(m, p) <= done)
    && (forall p :: m.Foreground(p) && Before(p, next) ==> p in done)
  }

  /** `best` lists the component of `b`, the largest of those done, and the first of that size. */
  ghost predicate BestOf(m: Mask, done: set<Pos>, best: seq<Pos>, b: Pos)
    requires m.Valid()
  {
    && (best == [] <==> done == {})
    && NoRepeats(best)
    && (best != [] ==>
          && b in done && Marked(best) == Component(m, b) && |best| == |Component(m, b)|
          && (forall p :: p in done ==> |Component(m, p)| <= |best|)
          && (forall p :: p in done && Before(p, b) ==> |Component(m, p)| < |best|))
  }

  lemma SeedIsFirst(m: Mask, done: set<Pos>, s: Pos, p: Pos)
    requires m.Valid() && Scanned(m, done, s) && m.Foreground(s) && s !in done && p in Component(m, s)
    ensures !Before(p, s) && p !in done && m.Foreground(p)
  {
    ComponentIsForeground(m, s, p);
    SameComponent(m, s, p);
    ReachesItself(Steps(m), s);
    assert s in Component(m, p);
  }

  /** After the component of `s` is done. */
  lemma ComponentDone(m: Mask, done: set<Pos>, s: Pos)
    requires m.Valid() && Scanned(m, done, s) && m.Foreground(s) && s !in done
    ensures Scanned(m, done + Component(m, s), s) && s in Component(m, s)
  {
    ReachesItself(Steps(m), s);
    forall p | p in Component(m, s) ensures m.Foreground(p) && Component(m, p) <= done + Component(m, s) {
      SeedIsFirst(m, done, s, p);
      SameComponent(m, s, p);
    }
    forall p, n | p in Component(m, s) && Steps(m)(p, n) ensures n in Component(m, s) {
      ReachesOneFurther(Steps(m), s, p, n);
    }
  }

  lemma NewBest(m: Mask, done: set<Pos>, best: seq<Pos>, b: Pos, s: Pos, comp: seq<Pos>)
    requires m.Valid() && Scanned(m, done, s) && BestOf(m, done, best, b) && m.Foreground(s) && s !in done
    requires NoRepeats(comp) && Marked(comp) == Component(m, s) && |comp| == |Component(m, s)| && |comp| > |best|
    ensures BestOf(m, done + Component(m, s), comp, s)
  {
    ReachesItself(Steps(m), s);
    assert s in Component(m, s);
    forall p | p in done + Component(m, s)
      ensures |Component(m, p)| <= |comp| && (Before(p, s) ==> |Component(m, p)| < |comp|)
    {
      if p in Component(m, s) {
        SameComponent(m, s, p);
        SeedIsFirst(m, done, s, p);
      }
    }
  }

  lemma SameBest(m: Mask, done: set<Pos>, best: seq<Pos>, b: Pos, s: Pos, comp: seq<Pos>)
    requires m.Valid() && Scanned(m, done, s) && BestOf(m, done, best, b) && m.Foreground(s) && s !in done
    requires |comp| == |Component(m, s)| && |comp| <= |best| && best != [] && !Before(s, b)
    ensures BestOf(m, done + Component(m, s), best, b)
  {
    forall p | p in done + Component(m, s)
      ensures |Component(m, p)| <= |best| && (Before(p, b) ==> |Component(m, p)| < |best|)
    {
      if p in Component(m, s) {
        SameComponent(m, s, p);
        SeedIsFirst(m, done, s, p);
      }
    }
  }

  /** What the result has to mark: nothing, or the first component of maximal size in scan order. */
  ghost predicate IsFirstLargest(m: Mask, b: Pos)
    requires m.Valid()
  {
    && m.Foreground(b)
    && (forall p :: m.Foreground(p) ==> |Component(m, p)| <= |Component(m, b)|)
    && (forall p :: m.Foreground(p) && Before(p, b) ==> |Component(m, p)| < |Component(m, b)|)
  }

  lemma BestIsFirstLargest(m: Mask, done: set<Pos>, best: seq<Pos>, b: Pos)
    requires m.Valid() && Scanned(m, done, (0, m.grid.h)) && BestOf(m, done, best, b)
    ensures best == [] ==> forall p :: !m.Foreground(p)
    ensures best != [] ==> IsFirstLargest(m, b)
  {
    forall p | m.Foreground(p) ensures p in done { assert Before(p, (0, m.grid.h)); }
  }

  /** One pixel of the scan: flood a component that has not been seen, and compare it to the best. */
  method ScanPixel(m: Mask, seen: array<bool>, ghost done: set<Pos>, best: seq<Pos>, ghost b: Pos, s: Pos)
    returns (best': seq<Pos>, ghost done': set<Pos>, ghost b': Pos)
    requires m.Valid() && m.grid.Has(s) && Marks(m.grid, seen, done) && Scanned(m, done, s) && BestOf(m, done, best, b)
    requires done != {} ==> !Before(s, b)
    modifies seen
    ensures Marks(m.grid, seen, done') && BestOf(m, done', best', b') && Scanned(m, done', s)
    ensures m.Foreground(s) ==> s in done'
    ensures done' != {} ==> b' == s || (done != {} && b' == b)
  {
    best', done', b' := best, done, b;
    var i := m.grid.Index(s);
    if seen[i] || m.px[i] < 128 { return; }
    var comp := Flood(m, seen, done, s);
    ComponentDone(m, done, s);
    done' := done + Component(m, s);
    if |comp| > |best| {
      NewBest(m, done, best, b, s, comp);
      best', b' := comp, s;
    } else {
      assert s in Marked(comp);
      SameBest(m, done, best, b, s, comp);
    }
  }

  lemma NextPixel(m: Mask, done: set<Pos>, x: nat, y: nat)
    requires m.Valid() && Scanned(m, done, (x, y)) && (m.Foreground((x, y)) ==> (x, y) in done)
    ensures Scanned(m, done, (x + 1, y))
  {
    forall p | m.Foreground(p) && Before(p, (x + 1, y)) ensures p in done {
      if !Before(p, (x, y)) { assert p == (x, y); }
    }
  }

  lemma RowDone(m: Mask, done: set<Pos>, y: nat)
    requires m.Valid() && Scanned(m, done, (m.grid.w, y))
    ensures Scanned(m, done, (0, y + 1))
  {
    forall p | m.Foreground(p) && Before(p, (0, y + 1)) ensures p in done { assert Before(p, (m.grid.w, y)); }
  }

  method ScanRow(m: Mask, seen: array<bool>, ghost done0: set<Pos>, best0: seq<Pos>, ghost b0: Pos, y: nat)
    returns (best: seq<Pos>, ghost done: set<Pos>, ghost b: Pos)
    requires m.Valid() && y < m.grid.h && Marks(m.grid, seen, done0) && Scanned(m, done0, (0, y))
      && BestOf(m, done0, best0, b0)
    requires done0 != {} ==> b0.1 < y
    modifies seen
    ensures Marks(m.grid, seen, done) && BestOf(m, done, best, b) && Scanned(m, done, (0, y + 1))
    ensures done != {} ==> b.1 < y + 1
  {
    best, done, b := best0, done0, b0;
    for x := 0 to m.grid.w
      invariant Marks(m.grid, seen, done) && BestOf(m, done, best, b) && Scanned(m, done, (x, y))
      invariant done != {} ==> b.1 < y || (b.1 == y && b.0 < x)
    {
      best, done, b := ScanPixel(m, seen, done, best, b, (x, y));
      NextPixel(m, done, x, y);
    }
    RowDone(m, done, y);
  }

  method FindLargest(m: Mask) returns (best: seq<Pos>, ghost b: Pos)
    requires m.Valid()
    ensures best == [] ==> forall p :: !m.Foreground(p)
    ensures best != [] ==> IsFirstLargest(m, b) && Marked(best) == Component(m, b)
  {
    var seen := new bool[m.grid.w * m.grid.h](_ => false);
    best := [];
    ghost var done: set<Pos> := {};
    b := (0, 0);
    for y := 0 to m.grid.h
      invariant Marks(m.grid, seen, done) && BestOf(m, done, best, b) && Scanned(m, done, (0, y))
      invariant done != {} ==> b.1 < y
    {
      best, done, b := ScanRow(m, seen, done, best, b, y);
    }
    BestIsFirstLargest(m, done, best, b);
  }

  /**
   * The cleaned mask: exactly one foreground component of maximal size, the first in scan order on
   * ties, or nothing when there is no foreground.
   */
  method KeepLargest(m: Mask) returns (out: array<bool>, ghost b: Pos)
    requires m.Valid()
    ensures fresh(out) && out.Length == m.grid.w * m.grid.h
    ensures if (forall p :: !m.Foreground(p)) then Marks(m.grid, out, {})
            else IsFirstLargest(m, b) && Marks(m.grid, out, Component(m, b))
  {
    var best;
    best, b := FindLargest(m);
    forall p | p in best ensures m.grid.Has(p) { assert p in Marked(best); }
    out := Paint(m.grid, best);
    if best == [] { assert Marked(best) == {}; }
  }

  method Paint(grid: Grid, pixels: seq<Pos>) returns (out: array<bool>)
    requires forall p :: p in pixels ==> grid.Has(p)
    ensures fresh(out) && Marks(grid, out, Marked(pixels))
  {
    out := new bool[grid.w * grid.h](_ => false);
    var k := 0;
    while k < |pixels|
      invariant 0 <= k <= |pixels| && Marks(grid, out, Marked(pixels[..k])) && fresh(out)
    {
      assert pixels[k] in pixels;
      Mark(grid, out, Marked(pixels[..k]), pixels[k]);
      assert Marked(pixels[..k + 1]) == Marked(pixels[..k]) + {pixels[k]};
      k := k + 1;
    }
    assert pixels[..k] == pixels;
  }
}
