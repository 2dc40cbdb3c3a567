/** Pixel grids, 4-neighbour steps and what can be reached by them. */
module Reachability {

  /** A pixel position: column, row. */
  type Pos = (int, int)

  datatype Grid = Grid(w: nat, h: nat) {
    predicate Has(p: Pos) {
      0 <= p.0 < w && 0 <= p.1 < h
    }

    function All(): (s: set<Pos>)
      ensures forall p: Pos :: p in s <==> Has(p)
    {
      set x, y | 0 <= x < w && 0 <= y < h :: (x, y)
    }

    /** Where a pixel lives in a flat, row-major buffer. */
    function Index(p: Pos): (i: nat)
      requires Has(p)
      ensures i < w * h
    {
      IndexInRange(p);
      p.1 * w + p.0
    }

    lemma IndexInRange(p: Pos)
      requires Has(p)
      ensures 0 <= p.1 * w + p.0 < w * h
    {
      assert p.1 * w + w <= h * w by { MulMonotone(p.1 + 1, h, w); }
    }

    lemma IndexInjective(p: Pos, q: Pos)
      requires Has(p) && Has(q) && Index(p) == Index(q)
      ensures p == q
    {
      if p.1 < q.1 { MulMonotone(p.1 + 1, q.1, w); }
      if q.1 < p.1 { MulMonotone(q.1 + 1, p.1, w); }
    }

    lemma IndexIsRowMajor(p: Pos, q: Pos)
      requires Has(p) && Has(q) && p.1 < q.1
      ensures Index(p) < Index(q)
    {
      MulMonotone(p.1 + 1, q.1, w);
    }
  }

  lemma MulMonotone(a: int, b: int, k: nat)
    requires a <= b
    ensures a * k <= b * k
  {
  }

  predicate Neighbours(p: Pos, q: Pos) {
    (p.1 == q.1 && (q.0 == p.0 - 1 || q.0 == p.0 + 1)) || (p.0 == q.0 && (q.1 == p.1 - 1 || q.1 == p.1 + 1))
  }

  ghost predicate IsPath(step: (Pos, Pos) -> bool, path: seq<Pos>) {
    |path| > 0 && forall i :: 0 <= i < |path| - 1 ==> step(path[i], path[i + 1])
  }

  ghost predicate Joins(step: (Pos, Pos) -> bool, from: Pos, path: seq<Pos>, to: Pos) {
    IsPath(step, path) && path[0] == from && path[|path| - 1] == to
  }

  /** `to` can be reached from `from` in zero or more steps. */
  ghost predicate Reaches(step: (Pos, Pos) -> bool, from: Pos, to: Pos) {
    exists path :: Joins(step, from, path, to)
  }

  lemma ReachesItself(step: (Pos, Pos) -> bool, p: Pos)
    ensures Reaches(step, p, p)
  {
    assert Joins(step, p, [p], p);
  }

  lemma ReachesOneFurther(step: (Pos, Pos) -> bool, from: Pos, p: Pos, q: Pos)
    requires Reaches(step, from, p) && step(p, q)
    ensures Reaches(step, from, q)
  {
    var path :| Joins(step, from, path, p);
    assert Joins(step, from, path + [q], q);
  }

  lemma ReachesThrough(step: (Pos, Pos) -> bool, a: Pos, b: Pos, c: Pos)
    requires Reaches(step, a, b) && Reaches(step, b, c)
    ensures Reaches(step, a, c)
  {
    var path :| Joins(step, a, path, b);
    var more :| Joins(step, b, more, c);
    var whole := path + more[1..];
    forall i | 0 <= i < |whole| - 1 ensures step(whole[i], whole[i + 1]) {
      if i >= |path| - 1 { assert whole[i] == more[i - (|path| - 1)]; }
    }
    assert Joins(step, a, whole, c);
  }

  lemma {:induction false} ReachesBack(step: (Pos, Pos) -> bool, a: Pos, path: seq<Pos>, b: Pos)
    requires Joins(step, a, path, b) && forall p, q :: step(p, q) ==> step(q, p)
    ensures Reaches(step, b, a)
    decreases |path|
  {
    if |path| == 1 {
      ReachesItself(step, a);
    } else {
      ReachesBack(step, path[1], path[1..], b);
      ReachesOneFurther(step, b, path[1], a);
    }
  }

  /** A set closed under the steps holds everything its members reach. */
  ghost predicate Closed(step: (Pos, Pos) -> bool, s: set<Pos>) {
    forall p, q :: p in s && step(p, q) ==> q in s
  }

  lemma {:induction false} ClosedHoldsPath(step: (Pos, Pos) -> bool, s: set<Pos>, from: Pos, path: seq<Pos>, to: Pos)
    requires Closed(step, s) && from in s && Joins(step, from, path, to)
    ensures to in s
    decreases |path|
  {
    if |path| > 1 { ClosedHoldsPath(step, s, path[1], path[1..], to); }
  }

  lemma ClosedHoldsReach(step: (Pos, Pos) -> bool, s: set<Pos>, from: Pos, to: Pos)
    requires Closed(step, s) && from in s && Reaches(step, from, to)
    ensures to in s
  {
    var path :| Joins(step, from, path, to);
    ClosedHoldsPath(step, s, from, path, to);
  }

  // ---------------------------------------------------------------- lists of pixels

  /** The pixels of a list. */
  ghost function Marked(log: seq<Pos>): set<Pos> {
    set p | p in log
  }

  ghost predicate Within(log: seq<Pos>, log': seq<Pos>) {
    forall p :: p in log ==> p in log'
  }

  ghost predicate NoRepeats(log: seq<Pos>) {
    forall i, j :: 0 <= i < j < |log| ==> log[i] != log[j]
  }

  lemma LogFits(grid: Grid, log: seq<Pos>)
    requires NoRepeats(log) && forall p :: p in log ==> grid.Has(p)
    ensures |log| <= |grid.All()|
  {
    DistinctCount(log);
    assert Marked(log) <= grid.All();
    SubsetIsSmaller(Marked(log), grid.All());
  }

  lemma {:induction false} DistinctCount(log: seq<Pos>)
    requires NoRepeats(log)
    ensures |Marked(log)| == |log|
  {
    if log != [] {
      var front := log[..|log| - 1];
      DistinctCount(front);
      assert Marked(log) == Marked(front) + {log[|log| - 1]};
    }
  }

  lemma {:induction false} SubsetIsSmaller(a: set<Pos>, b: set<Pos>)
    requires a <= b
    ensures |a| <= |b|
  {
    assert b == a + (b - a);
  }
}
