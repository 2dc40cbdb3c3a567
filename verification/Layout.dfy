/**
 * The mosaic layout of a workspace: a binary tree of panes, with panes split, removed, minimized,
 * restored and moved between workspaces, and the visible tree computed from it.
 */
module Layout {
  import opened Chunks

  datatype Direction = Row | Column
  datatype Position = Before | After

  /** `ratio` is the split percentage, present once a divider was dragged. */
  datatype Node = Leaf(id: string) | Split(direction: Direction, first: Node, second: Node, ratio: Option<real>)

  /** `root` matters to panes of kind "orky" only and is None when missing or not text; `rest` is everything else. */
  datatype Config = Config(kind: string, root: Option<string>, rest: string)
  datatype Pane = Pane(paneId: string, config: Config)
  datatype Home = Home(agentId: string, agentName: string)

  datatype Workspace = Workspace(id: string, name: string, layout: Option<Node>, panes: map<string, Pane>,
                                 minimized: seq<string>, maximized: Option<string>,
                                 theme: Option<string>, runCommands: Option<string>, home: Option<Home>)

  // ---------------------------------------------------------------- the tree

  /** The panes of a tree, left to right. */
  function Leaves(n: Node): (r: seq<string>)
    ensures |r| > 0
  {
    match n
    case Leaf(id) => [id]
    case Split(_, first, second, _) => Leaves(first) + Leaves(second)
  }

  function LeavesOf(t: Option<Node>): seq<string> {
    if t.None? then [] else Leaves(t.value)
  }

  predicate Distinct(s: seq<string>) {
    forall i, j :: 0 <= i < j < |s| ==> s[i] != s[j]
  }

  predicate Disjoint(a: seq<string>, b: seq<string>) {
    forall x :: x in a ==> x !in b
  }

  lemma DistinctConcat(a: seq<string>, b: seq<string>)
    ensures Distinct(a + b) <==> Distinct(a) && Distinct(b) && Disjoint(a, b)
  {
    var s := a + b;
    if Distinct(s) {
      forall i, j | 0 <= i < j < |a| ensures a[i] != a[j] { assert s[i] != s[j]; }
      forall i, j | 0 <= i < j < |b| ensures b[i] != b[j] { assert s[|a| + i] != s[|a| + j]; }
      forall i, j | 0 <= i < |a| && 0 <= j < |b| ensures a[i] != b[j] { assert s[i] != s[|a| + j]; }
    } else {
      var i, j :| 0 <= i < j < |s| && s[i] == s[j];
      if i < |a| <= j { assert s[i] in a && s[j] in b; }
    }
  }

  function ReplaceLeaf(n: Node, target: string, replacement: Node): Node {
    match n
    case Leaf(id) => if id == target then replacement else n
    case Split(_, first, second, _) =>
      n.(first := ReplaceLeaf(first, target, replacement), second := ReplaceLeaf(second, target, replacement))
  }

  /** A parent that loses one child is replaced by the other. */
  function RemoveLeaf(n: Node, target: string): Option<Node> {
    match n
    case Leaf(id) => if id == target then None else Some(n)
    case Split(_, first, second, _) =>
      var a, b := RemoveLeaf(first, target), RemoveLeaf(second, target);
      if a.None? then b else if b.None? then a else Some(n.(first := a.value, second := b.value))
  }

  function RemoveFrom(t: Option<Node>, target: string): Option<Node> {
    if t.None? then None else RemoveLeaf(t.value, target)
  }

  /** The tree restricted, all at once, to the panes that are not hidden. */
  function Restrict(n: Node, hidden: set<string>): Option<Node> {
    match n
    case Leaf(id) => if id in hidden then None else Some(n)
    case Split(_, first, second, _) =>
      var a, b := Restrict(first, hidden), Restrict(second, hidden);
      if a.None? then b else if b.None? then a else Some(n.(first := a.value, second := b.value))
  }

  function RestrictTo(t: Option<Node>, hidden: set<string>): Option<Node> {
    if t.None? then None else Restrict(t.value, hidden)
  }

  function Without(s: seq<string>, hidden: set<string>): seq<string> {
    if s == [] then [] else Without(s[..|s| - 1], hidden) + if s[|s| - 1] in hidden then [] else [s[|s| - 1]]
  }

  lemma {:induction false} WithoutMembers(s: seq<string>, hidden: set<string>)
    ensures forall x :: x in Without(s, hidden) <==> x in s && x !in hidden
    decreases |s|
  {
    if s != [] {
      assert forall x :: x in s <==> x in s[..|s| - 1] || x == s[|s| - 1];
      WithoutMembers(s[..|s| - 1], hidden);
    }
  }

  lemma {:induction false} WithoutConcat(a: seq<string>, b: seq<string>, hidden: set<string>)
    ensures Without(a + b, hidden) == Without(a, hidden) + Without(b, hidden)
    decreases |b|
  {
    if b == [] {
      assert a + b == a;
    } else {
      WithoutConcat(a, b[..|b| - 1], hidden);
      assert (a + b)[..|a + b| - 1] == a + b[..|b| - 1];
    }
  }

  lemma {:induction false} WithoutNothing(s: seq<string>, hidden: set<string>)
    requires forall x :: x in s ==> x !in hidden
    ensures Without(s, hidden) == s
  {
    if s != [] { WithoutNothing(s[..|s| - 1], hidden); }
  }

  lemma {:induction false} WithoutAll(s: seq<string>, hidden: set<string>)
    requires forall x :: x in s ==> x in hidden
    ensures Without(s, hidden) == []
  {
    if s != [] { WithoutAll(s[..|s| - 1], hidden); }
  }

  lemma {:induction false} WithoutDistinct(s: seq<string>, hidden: set<string>)
    requires Distinct(s)
    ensures Distinct(Without(s, hidden))
    decreases |s|
  {
    if s != [] {
      var front, last := s[..|s| - 1], s[|s| - 1];
      assert s == front + [last];
      DistinctConcat(front, [last]);
      WithoutDistinct(front, hidden);
      WithoutMembers(front, hidden);
      DistinctConcat(Without(front, hidden), [last]);
    }
  }

  /** Restriction keeps the other panes, all of them, in their order. */
  lemma {:induction false} RestrictLeaves(n: Node, hidden: set<string>)
    ensures LeavesOf(Restrict(n, hidden)) == Without(Leaves(n), hidden)
    decreases n
  {
    match n
    case Leaf(id) =>
    case Split(_, first, second, _) =>
      RestrictLeaves(first, hidden);
      RestrictLeaves(second, hidden);
      WithoutConcat(Leaves(first), Leaves(second), hidden);
  }

  lemma RestrictMembers(n: Node, hidden: set<string>)
    ensures forall x :: x in LeavesOf(Restrict(n, hidden)) <==> x in Leaves(n) && x !in hidden
    ensures Distinct(Leaves(n)) ==> Distinct(LeavesOf(Restrict(n, hidden)))
  {
    RestrictLeaves(n, hidden);
    WithoutMembers(Leaves(n), hidden);
    if Distinct(Leaves(n)) { WithoutDistinct(Leaves(n), hidden); }
  }

  /** Removing one leaf is restricting by that one. */
  lemma {:induction false} RemoveIsRestrict(n: Node, target: string)
    ensures RemoveLeaf(n, target) == Restrict(n, {target})
    decreases n
  {
    match n
    case Leaf(id) =>
    case Split(_, first, second, _) =>
      RemoveIsRestrict(first, target);
      RemoveIsRestrict(second, target);
  }

  lemma {:induction false} RestrictTwice(n: Node, a: set<string>, b: set<string>)
    ensures RestrictTo(Restrict(n, a), b) == Restrict(n, a + b)
    decreases n
  {
    match n
    case Leaf(id) =>
    case Split(_, first, second, _) =>
      RestrictTwice(first, a, b);
      RestrictTwice(second, a, b);
  }

  lemma {:induction false} RestrictNothing(n: Node, hidden: set<string>)
    requires forall x :: x in Leaves(n) ==> x !in hidden
    ensures Restrict(n, hidden) == Some(n)
    decreases n
  {
    match n
    case Leaf(id) =>
    case Split(_, first, second, _) =>
      RestrictNothing(first, hidden);
      RestrictNothing(second, hidden);
  }

  // ---------------------------------------------------------------- relative placement

  /** How the divider nearest to both lies between `a` and a later `b`; None unless `a` comes before `b`. */
  function Divider(n: Node, a: string, b: string): Option<(Direction, Option<real>)> {
    match n
    case Leaf(_) => None
    case Split(direction, first, second, ratio) =>
      if a in Leaves(first) && b in Leaves(second) then Some((direction, ratio))
      else if a in Leaves(first) && b in Leaves(first) then Divider(first, a, b)
      else if a in Leaves(second) && b in Leaves(second) then Divider(second, a, b)
      else None
  }

  /** Hiding some panes leaves the relative placement of all others as it was. */
  lemma {:induction false} RestrictKeepsDividers(n: Node, hidden: set<string>, a: string, b: string)
    requires Distinct(Leaves(n)) && a in Leaves(n) && b in Leaves(n) && a !in hidden && b !in hidden
    ensures Restrict(n, hidden).Some? && Divider(Restrict(n, hidden).value, a, b) == Divider(n, a, b)
    decreases n
  {
    match n
    case Leaf(id) =>
    case Split(_, first, second, _) =>
      DistinctConcat(Leaves(first), Leaves(second));
      RestrictMembers(first, hidden);
      RestrictMembers(second, hidden);
      if a in Leaves(first) && b in Leaves(first) { RestrictKeepsDividers(first, hidden, a, b); }
      if a in Leaves(second) && b in Leaves(second) { RestrictKeepsDividers(second, hidden, a, b); }
  }

  /** The parent that splitting puts in the target's place. */
  function SplitOf(target: string, direction: Direction, added: string, position: Position): Node {
    match position
    case Before => Split(direction, Leaf(added), Leaf(target), None)
    case After => Split(direction, Leaf(target), Leaf(added), None)
  }

  lemma {:induction false} ReplaceAbsent(n: Node, target: string, replacement: Node)
    requires target !in Leaves(n)
    ensures ReplaceLeaf(n, target, replacement) == n
    decreases n
  {
    match n
    case Leaf(id) =>
    case Split(_, first, second, _) =>
      ReplaceAbsent(first, target, replacement);
      ReplaceAbsent(second, target, replacement);
  }

  /** Splitting adds exactly the new pane, and keeps panes distinct. */
  lemma {:induction false} SplitLeaves(n: Node, target: string, direction: Direction, added: string, position: Position)
    requires Distinct(Leaves(n)) && added !in Leaves(n)
    ensures var n' := ReplaceLeaf(n, target, SplitOf(target, direction, added, position));
      && Distinct(Leaves(n'))
      && forall x :: x in Leaves(n') <==> x in Leaves(n) || (x == added && target in Leaves(n))
    decreases n
  {
    match n
    case Leaf(id) =>
    case Split(_, first, second, _) =>
      var r := SplitOf(target, direction, added, position);
      DistinctConcat(Leaves(first), Leaves(second));
      SplitLeaves(first, target, direction, added, position);
      SplitLeaves(second, target, direction, added, position);
      DistinctConcat(Leaves(ReplaceLeaf(first, target, r)), Leaves(ReplaceLeaf(second, target, r)));
  }

  /** Removing the pane that a split added gives the tree back, ratios included. */
  lemma {:induction false} RemoveUndoesSplit(n: Node, target: string, direction: Direction, added: string,
      position: Position)
    requires added !in Leaves(n)
    ensures RemoveLeaf(ReplaceLeaf(n, target, SplitOf(target, direction, added, position)), added) == Some(n)
    decreases n
  {
    match n
    case Leaf(id) =>
    case Split(_, first, second, _) =>
      RemoveUndoesSplit(first, target, direction, added, position);
      RemoveUndoesSplit(second, target, direction, added, position);
  }

  /** A split moves no pane against any other: the new pane shares the target's place and lies next to it. */
  lemma {:induction false} SplitKeepsDividers(n: Node, target: string, direction: Direction, added: string,
      position: Position, a: string, b: string)
    requires Distinct(Leaves(n)) && added !in Leaves(n) && target in Leaves(n) && a in Leaves(n) && b in Leaves(n)
    ensures var n' := ReplaceLeaf(n, target, SplitOf(target, direction, added, position));
      && Divider(n', a, b) == Divider(n, a, b)
      && (a != target ==>
            Divider(n', a, added) == Divider(n, a, target) && Divider(n', added, a) == Divider(n, target, a))
      && Divider(n', target, added) == (if position.After? then Some((direction, None)) else None)
      && Divider(n', added, target) == (if position.Before? then Some((direction, None)) else None)
    decreases n
  {
    match n
    case Leaf(id) =>
    case Split(_, first, second, _) =>
      var r := SplitOf(target, direction, added, position);
      DistinctConcat(Leaves(first), Leaves(second));
      SplitLeaves(first, target, direction, added, position);
      SplitLeaves(second, target, direction, added, position);
      if target in Leaves(first) {
        ReplaceAbsent(second, target, r);
        var x := if a in Leaves(first) then a else target;
        var y := if b in Leaves(first) then b else target;
        SplitKeepsDividers(first, target, direction, added, position, x, y);
      } else {
        ReplaceAbsent(first, target, r);
        var x := if a in Leaves(second) then a else target;
        var y := if b in Leaves(second) then b else target;
        SplitKeepsDividers(second, target, direction, added, position, x, y);
      }
  }

  // ---------------------------------------------------------------- workspace operations

  function AddFirstPane(ws: Workspace, config: Config, added: string): Workspace {
    ws.(layout := Some(Leaf(added)), panes := ws.panes[added := Pane(added, config)])
  }

  function SplitPane(ws: Workspace, target: string, direction: Direction, config: Config, added: string,
      position: Position): Workspace {
    if ws.layout.None? then AddFirstPane(ws, config, added)
    else ws.(layout := Some(ReplaceLeaf(ws.layout.value, target, SplitOf(target, direction, added, position))),
             panes := ws.panes[added := Pane(added, config)])
  }

  function PruneViewState(ws: Workspace, pane: string): Workspace {
    ws.(minimized := Without(ws.minimized, {pane}),
        maximized := if ws.maximized == Some(pane) then None else ws.maximized)
  }

  function RemovePane(ws: Workspace, pane: string): Workspace {
    PruneViewState(ws.(layout := RemoveFrom(ws.layout, pane), panes := ws.panes - {pane}), pane)
  }

  /** The tree after removing the panes of a list one after the other. */
  function RemoveAll(t: Option<Node>, ids: seq<string>): Option<Node>
    decreases |ids|
  {
    if ids == [] then t else RemoveAll(RemoveFrom(t, ids[0]), ids[1..])
  }

  function VisibleLayout(ws: Workspace): Option<Node> {
    RemoveAll(ws.layout, ws.minimized)
  }

  function MinimizePane(ws: Workspace, pane: string): Workspace {
    if pane !in ws.panes || pane in ws.minimized then ws
    else ws.(minimized := ws.minimized + [pane], maximized := if ws.maximized == Some(pane) then None else ws.maximized)
  }

  function ToTheRight(t: Option<Node>, pane: string): Node {
    if t.None? then Leaf(pane) else Split(Row, t.value, Leaf(pane), None)
  }

  function RestorePane(ws: Workspace, pane: string): Workspace {
    if pane !in ws.panes || pane !in ws.minimized then ws
    else
      var rest := Without(ws.minimized, {pane});
      ws.(layout := Some(ToTheRight(RemoveAll(RemoveFrom(ws.layout, pane), rest), pane)), minimized := rest)
  }

  function MovePane(from: Workspace, to: Workspace, pane: string): (Workspace, Workspace) {
    if pane !in from.panes then (from, to)
    else
      var to' := to.(layout := Some(ToTheRight(to.layout, pane)), panes := to.panes[pane := from.panes[pane]]);
      (RemovePane(from, pane), PruneViewState(to', pane))
  }

  // ---------------------------------------------------------------- the visible layout

  function SetOf(s: seq<string>): set<string> {
    set x | x in s
  }

  lemma {:induction false} RemoveAllIsRestrict(t: Option<Node>, ids: seq<string>)
    ensures RemoveAll(t, ids) == RestrictTo(t, SetOf(ids))
    decreases |ids|
  {
    if ids == [] {
      if t.Some? { RestrictNothing(t.value, SetOf(ids)); }
    } else {
      RemoveAllIsRestrict(RemoveFrom(t, ids[0]), ids[1..]);
      if t.Some? {
        RemoveIsRestrict(t.value, ids[0]);
        RestrictTwice(t.value, {ids[0]}, SetOf(ids[1..]));
        assert {ids[0]} + SetOf(ids[1..]) == SetOf(ids);
      }
    }
  }

  /**
   * The visible layout is the whole tree restricted to the panes that are not minimized, whatever
   * the order in which they were minimized: the same panes in the same order, and any two of them
   * divided as before.
   */
  lemma VisibleIsRestriction(ws: Workspace)
    ensures VisibleLayout(ws) == RestrictTo(ws.layout, SetOf(ws.minimized))
    ensures LeavesOf(VisibleLayout(ws)) == Without(LeavesOf(ws.layout), SetOf(ws.minimized))
    ensures forall p :: p in LeavesOf(VisibleLayout(ws)) <==> p in LeavesOf(ws.layout) && p !in ws.minimized
    ensures Distinct(LeavesOf(ws.layout)) ==>
      forall a, b :: a in LeavesOf(VisibleLayout(ws)) && b in LeavesOf(VisibleLayout(ws)) ==>
        Divider(VisibleLayout(ws).value, a, b) == Divider(ws.layout.value, a, b)
  {
    RemoveAllIsRestrict(ws.layout, ws.minimized);
    if ws.layout.Some? {
      RestrictLeaves(ws.layout.value, SetOf(ws.minimized));
      RestrictMembers(ws.layout.value, SetOf(ws.minimized));
      if Distinct(LeavesOf(ws.layout)) {
        forall a, b | a in LeavesOf(VisibleLayout(ws)) && b in LeavesOf(VisibleLayout(ws))
          ensures Divider(VisibleLayout(ws).value, a, b) == Divider(ws.layout.value, a, b)
        {
          RestrictKeepsDividers(ws.layout.value, SetOf(ws.minimized), a, b);
        }
      }
    }
  }

  lemma MinimizeOrderIsIrrelevant(ws: Workspace, other: seq<string>)
    requires forall x :: x in ws.minimized <==> x in other
    ensures VisibleLayout(ws) == VisibleLayout(ws.(minimized := other))
  {
    VisibleIsRestriction(ws);
    VisibleIsRestriction(ws.(minimized := other));
    assert SetOf(ws.minimized) == SetOf(other);
  }

  /** Put to the right of a tree, a pane is one row with everything in it, and nothing in it moves. */
  lemma ToTheRightIsARow(t: Node, pane: string, a: string, b: string)
    requires pane !in Leaves(t) && a in Leaves(t) && b in Leaves(t)
    ensures var n := ToTheRight(Some(t), pane);
      Divider(n, a, pane) == Some((Row, None)) && Divider(n, pane, a).None? && Divider(n, a, b) == Divider(t, a, b)
  {
  }

  /** Restoring puts the pane into a row with everything that was visible, on its right, and moves nothing else. */
  lemma RestoredPaneIsInARow(ws: Workspace, pane: string, a: string, b: string)
    requires pane in ws.panes && pane in ws.minimized
    requires a in LeavesOf(VisibleLayout(ws)) && b in LeavesOf(VisibleLayout(ws))
    ensures VisibleLayout(RestorePane(ws, pane)).Some?
    ensures var n := VisibleLayout(RestorePane(ws, pane)).value;
      Divider(n, a, pane) == Some((Row, None)) && Divider(n, a, b) == Divider(VisibleLayout(ws).value, a, b)
  {
    RestoreLandsOnTheRight(ws, pane);
    VisibleIsRestriction(ws);
    ToTheRightIsARow(VisibleLayout(ws).value, pane, a, b);
  }

  /** A pane that moves in lands in a row with everything there, on its right, and moves nothing else. */
  lemma ArrivingPaneIsInARow(from: Workspace, to: Workspace, pane: string, a: string, b: string)
    requires pane in from.panes && pane !in LeavesOf(to.layout) && a in LeavesOf(to.layout) && b in LeavesOf(to.layout)
    ensures var n := MovePane(from, to, pane).1.layout.value;
      Divider(n, a, pane) == Some((Row, None)) && Divider(n, a, b) == Divider(to.layout.value, a, b)
  {
    ToTheRightIsARow(to.layout.value, pane, a, b);
  }

  /** Restoring puts the pane to the right of everything that was visible, which does not change. */
  lemma RestoreLandsOnTheRight(ws: Workspace, pane: string)
    requires pane in ws.panes && pane in ws.minimized
    ensures VisibleLayout(RestorePane(ws, pane)) == Some(ToTheRight(VisibleLayout(ws), pane))
    ensures RestorePane(ws, pane).layout == Some(ToTheRight(VisibleLayout(ws), pane))
  {
    var rest := Without(ws.minimized, {pane});
    WithoutMembers(ws.minimized, {pane});
    RemoveAllIsRestrict(ws.layout, ws.minimized);
    RemoveAllIsRestrict(ws.layout, [pane] + rest);
    assert ([pane] + rest)[1..] == rest;
    assert SetOf([pane] + rest) == SetOf(ws.minimized);
    var base := RemoveAll(RemoveFrom(ws.layout, pane), rest);
    assert base == VisibleLayout(ws);
    VisibleIsRestriction(ws);
    var layout := ToTheRight(base, pane);
    RemoveAllIsRestrict(Some(layout), rest);
    RestrictNothing(layout, SetOf(rest));
  }

  // ---------------------------------------------------------------- the layout invariant

  ghost predicate TreeOk(ws: Workspace) {
    && Distinct(LeavesOf(ws.layout))
    && (forall p :: p in LeavesOf(ws.layout) ==> p in ws.panes)
    && (forall p :: p in ws.panes && p !in ws.minimized ==> p in LeavesOf(ws.layout))
  }

  ghost predicate ViewOk(ws: Workspace) {
    && (forall p :: p in ws.minimized ==> p in ws.panes)
    && (ws.maximized.Some? ==> ws.maximized.value in ws.panes && ws.maximized.value !in ws.minimized)
  }

  ghost predicate KeysOk(ws: Workspace) {
    forall p :: p in ws.panes ==> ws.panes[p].paneId == p
  }

  /**
   * Every pane has one tile or waits in the tray, nothing refers to a pane that is gone, and no pane is
   * both minimized and maximized.
   */
  ghost predicate LayoutOk(ws: Workspace) {
    TreeOk(ws) && ViewOk(ws) && KeysOk(ws) && Distinct(ws.minimized)
  }

  /** On a sound workspace the visible tiles are exactly the panes that are not minimized, once each. */
  lemma TilesAreTheRest(ws: Workspace)
    requires LayoutOk(ws)
    ensures Distinct(LeavesOf(VisibleLayout(ws)))
    ensures forall p :: p in LeavesOf(VisibleLayout(ws)) <==> p in ws.panes && p !in ws.minimized
  {
    VisibleIsRestriction(ws);
    WithoutDistinct(LeavesOf(ws.layout), SetOf(ws.minimized));
  }

  /** A first pane replaces the whole tree, so it is sound exactly when no other pane needs a tile. */
  lemma AddFirstKeepsIff(ws: Workspace, config: Config, added: string)
    requires LayoutOk(ws) && added !in ws.panes
    ensures LayoutOk(AddFirstPane(ws, config, added)) <==> forall p :: p in ws.panes ==> p in ws.minimized
  {
    var ws' := AddFirstPane(ws, config, added);
    if LayoutOk(ws') {
      forall p | p in ws.panes ensures p in ws.minimized { assert p in ws'.panes && p != added; }
    }
  }

  /** Splitting a pane that has no tile creates a pane that nothing shows; splitting any other is sound. */
  lemma SplitKeepsIff(ws: Workspace, target: string, direction: Direction, config: Config, added: string,
      position: Position)
    requires LayoutOk(ws) && added !in ws.panes
    ensures LayoutOk(SplitPane(ws, target, direction, config, added, position)) <==>
      ws.layout.None? || target in Leaves(ws.layout.value)
  {
    if ws.layout.None? {
      AddFirstKeepsIff(ws, config, added);
    } else {
      var ws' := SplitPane(ws, target, direction, config, added, position);
      SplitLeaves(ws.layout.value, target, direction, added, position);
      assert added in ws'.panes && added !in ws'.minimized;
    }
  }

  lemma RemoveKeeps(ws: Workspace, pane: string)
    requires LayoutOk(ws)
    ensures LayoutOk(RemovePane(ws, pane))
    ensures LeavesOf(RemovePane(ws, pane).layout) == Without(LeavesOf(ws.layout), {pane})
  {
    if ws.layout.Some? {
      RemoveIsRestrict(ws.layout.value, pane);
      RestrictLeaves(ws.layout.value, {pane});
      RestrictMembers(ws.layout.value, {pane});
    }
    WithoutMembers(ws.minimized, {pane});
    WithoutDistinct(ws.minimized, {pane});
  }

  lemma MinimizeKeeps(ws: Workspace, pane: string)
    requires LayoutOk(ws)
    ensures LayoutOk(MinimizePane(ws, pane))
    ensures pane in ws.panes ==> pane !in LeavesOf(VisibleLayout(MinimizePane(ws, pane)))
  {
    DistinctConcat(ws.minimized, [pane]);
    VisibleIsRestriction(MinimizePane(ws, pane));
  }

  /** A pane that goes to the tray and comes back leaves tray, maximized pane and pane table as they were. */
  lemma MinimizeThenRestore(ws: Workspace, pane: string)
    requires pane in ws.panes && pane !in ws.minimized && ws.maximized != Some(pane)
    ensures var tray := MinimizePane(ws, pane);
      tray.minimized == ws.minimized + [pane] && tray.maximized == ws.maximized && tray.layout == ws.layout
    ensures var back := RestorePane(MinimizePane(ws, pane), pane);
      back == ws.(layout := back.layout)
  {
    WithoutConcat(ws.minimized, [pane], {pane});
    WithoutNothing(ws.minimized, {pane});
    WithoutAll([pane], {pane});
    assert ws.minimized + [] == ws.minimized;
  }

  lemma ToTheRightLeaves(t: Option<Node>, pane: string)
    ensures Leaves(ToTheRight(t, pane)) == LeavesOf(t) + [pane]
    ensures Distinct(Leaves(ToTheRight(t, pane))) <==> Distinct(LeavesOf(t)) && pane !in LeavesOf(t)
  {
    assert [] + [pane] == [pane];
    DistinctConcat(LeavesOf(t), [pane]);
  }

  lemma RestoreKeeps(ws: Workspace, pane: string)
    requires LayoutOk(ws)
    ensures LayoutOk(RestorePane(ws, pane))
  {
    if pane in ws.panes && pane in ws.minimized {
      RestoreLandsOnTheRight(ws, pane);
      TilesAreTheRest(ws);
      ToTheRightLeaves(VisibleLayout(ws), pane);
      WithoutMembers(ws.minimized, {pane});
      WithoutDistinct(ws.minimized, {pane});
    }
  }

  function TwoTiles(config: Config): Workspace {
    var one := AddFirstPane(Workspace("w", "w", None, map[], [], None, None, None, None), config, "a");
    SplitPane(one, "a", Row, config, "b", After)
  }

  /** Minimize both of two panes, restore the first: the restore drops the other one's leaf. */
  function OneInTheTray(config: Config): Workspace {
    RestorePane(MinimizePane(MinimizePane(TwoTiles(config), "b"), "a"), "a")
  }

  /**
   * For instance: splitting a pane that waits in the tray, and whose leaf a restore dropped, leaves a
   * new pane that is in the pane table but that no tile and no tray entry shows.
   */
  lemma SplitWithoutTileOrphans(config: Config)
    ensures var ws := OneInTheTray(config); var ws' := SplitPane(ws, "b", Row, config, "n", After);
      && LayoutOk(ws) && "b" in ws.minimized && "n" !in ws.panes
      && !LayoutOk(ws') && "n" in ws'.panes && "n" !in LeavesOf(ws'.layout) && "n" !in ws'.minimized
  {
    var ws := OneInTheTray(config);
    TrayOk(config);
    assert Leaves(Leaf("a")) == ["a"];
    SplitKeepsIff(ws, "b", Row, config, "n", After);
    ReplaceAbsent(Leaf("a"), "b", SplitOf("b", Row, "n", After));
  }

  lemma TwoTilesOk(config: Config)
    ensures var two := TwoTiles(config); LayoutOk(two) && two.panes.Keys == {"a", "b"} && two.minimized == []
  {
    var none := Workspace("w", "w", None, map[], [], None, None, None, None);
    AddFirstKeepsIff(none, config, "a");
    assert Leaves(Leaf("a")) == ["a"];
    SplitKeepsIff(AddFirstPane(none, config, "a"), "a", Row, config, "b", After);
  }

  lemma TrayOk(config: Config)
    ensures var ws := OneInTheTray(config);
      LayoutOk(ws) && ws.layout == Some(Leaf("a")) && ws.minimized == ["b"] && ws.panes.Keys == {"a", "b"}
  {
    var two := TwoTiles(config);
    TwoTilesOk(config);
    var tray := MinimizePane(MinimizePane(two, "b"), "a");
    MinimizeKeeps(two, "b");
    MinimizeKeeps(MinimizePane(two, "b"), "a");
    assert tray.minimized == ["b"] + ["a"] && tray.panes == two.panes;
    AloneAfterRestore(tray, "a");
    RestoreKeeps(tray, "a");
    OnlyTheOther();
  }

  lemma OnlyTheOther()
    ensures Without(["b"] + ["a"], {"a"}) == ["b"]
  {
    WithoutConcat(["b"], ["a"], {"a"});
    WithoutNothing(["b"], {"a"});
    WithoutAll(["a"], {"a"});
  }

  /** Where everything was minimized, the restored pane is the whole tree. */
  lemma AloneAfterRestore(ws: Workspace, pane: string)
    requires LayoutOk(ws) && pane in ws.panes && forall p :: p in ws.panes ==> p in ws.minimized
    ensures RestorePane(ws, pane).layout == Some(Leaf(pane))
    ensures RestorePane(ws, pane).minimized == Without(ws.minimized, {pane})
  {
    RestoreLandsOnTheRight(ws, pane);
    VisibleIsRestriction(ws);
    WithoutAll(LeavesOf(ws.layout), SetOf(ws.minimized));
  }

  /** A move keeps the source sound always, and the destination exactly when it has no tile for that pane already. */
  lemma MoveKeepsIff(from: Workspace, to: Workspace, pane: string)
    requires LayoutOk(from) && LayoutOk(to) && pane in from.panes
    ensures LayoutOk(MovePane(from, to, pane).0)
    ensures LayoutOk(MovePane(from, to, pane).1) <==> pane !in LeavesOf(to.layout)
  {
    RemoveKeeps(from, pane);
    ToTheRightLeaves(to.layout, pane);
    WithoutMembers(to.minimized, {pane});
    WithoutDistinct(to.minimized, {pane});
  }

  /** A move takes the pane, as it is, from one workspace to the other and touches no other pane. */
  lemma MoveConserves(from: Workspace, to: Workspace, pane: string)
    requires pane in from.panes
    ensures var (from', to') := MovePane(from, to, pane);
      && from'.panes == from.panes - {pane} && to'.panes - {pane} == to.panes - {pane}
      && pane in to'.panes && to'.panes[pane] == from.panes[pane]
      && from'.panes.Keys + to'.panes.Keys == from.panes.Keys + to.panes.Keys
  {
    var (from', to') := MovePane(from, to, pane);
    assert from'.panes.Keys == from.panes.Keys - {pane};
    assert to'.panes.Keys == to.panes.Keys + {pane};
  }

  /** No pane is lost or doubled by a move exactly when the destination does not know the pane yet. */
  lemma MoveKeepsCountIff(from: Workspace, to: Workspace, pane: string)
    requires pane in from.panes
    ensures var (from', to') := MovePane(from, to, pane);
      |from'.panes.Keys| + |to'.panes.Keys| == |from.panes.Keys| + |to.panes.Keys| <==> pane !in to.panes
  {
    MoveKeys(from, to, pane);
    OneMore(to.panes.Keys, pane);
    OneLess(from.panes.Keys, pane);
  }

  lemma MoveKeys(from: Workspace, to: Workspace, pane: string)
    requires pane in from.panes
    ensures MovePane(from, to, pane).0.panes.Keys == from.panes.Keys - {pane}
    ensures MovePane(from, to, pane).1.panes.Keys == to.panes.Keys + {pane}
  {
  }

  lemma OneMore(s: set<string>, x: string)
    ensures |s + {x}| == |s| + if x in s then 0 else 1
  {
    if x in s { assert s + {x} == s; }
  }

  lemma OneLess(s: set<string>, x: string)
    requires x in s
    ensures |s - {x}| == |s| - 1
  {
  }

  /** Closing the pane a split just opened gives back the whole workspace. */
  lemma CloseUndoesSplit(ws: Workspace, target: string, direction: Direction, config: Config, added: string,
      position: Position)
    requires LayoutOk(ws) && added !in ws.panes
    ensures RemovePane(SplitPane(ws, target, direction, config, added, position), added) == ws
  {
    var ws' := SplitPane(ws, target, direction, config, added, position);
    if ws.layout.Some? { RemoveUndoesSplit(ws.layout.value, target, direction, added, position); }
    assert ws'.panes - {added} == ws.panes;
    WithoutNothing(ws.minimized, {added});
  }

  /** Moving a pane on again leaves the workspace it passed through as it was. */
  lemma PassingThroughLeavesNoTrace(from: Workspace, to: Workspace, third: Workspace, pane: string)
    requires LayoutOk(to) && pane in from.panes && pane !in to.panes
    ensures var to' := MovePane(from, to, pane).1;
      && MovePane(to', third, pane).0 == to
      && pane in MovePane(to', third, pane).1.panes && MovePane(to', third, pane).1.panes[pane] == from.panes[pane]
  {
    var to' := MovePane(from, to, pane).1;
    if to.layout.Some? {
      RemoveIsRestrict(to.layout.value, pane);
      RestrictNothing(to.layout.value, {pane});
      assert RemoveLeaf(to.layout.value, pane) == Some(to.layout.value) && RemoveLeaf(Leaf(pane), pane) == None;
    }
    assert to'.panes - {pane} == to.panes;
    WithoutNothing(to.minimized, {pane});
    assert to'.maximized == to.maximized && to'.minimized == to.minimized;
    assert RemoveFrom(to'.layout, pane) == to.layout;
  }

  // ---------------------------------------------------------------- runs over many workspaces

  type Desk = map<string, Workspace>

  datatype Op =
    | Create(key: string, name: string)
    | SplitAt(key: string, target: string, direction: Direction, position: Position, config: Config, added: string)
    | Close(key: string, pane: string)
    | Minimize(key: string, pane: string)
    | Restore(key: string, pane: string)
    | Move(key: string, other: string, pane: string)

  function PanesOn(d: Desk): set<string> {
    set k, p | k in d && p in d[k].panes :: p
  }

  /** What callers owe: known workspaces, a fresh id, a target with a tile, and a move between two workspaces. */
  predicate Allowed(d: Desk, op: Op) {
    match op
    case Create(key, name) => key !in d
    case SplitAt(key, target, direction, position, config, added) =>
      key in d && added !in PanesOn(d) && (d[key].layout.None? || target in Leaves(d[key].layout.value))
    case Move(key, other, pane) => key in d && other in d && key != other
    case Close(key, pane) => key in d
    case Minimize(key, pane) => key in d
    case Restore(key, pane) => key in d
  }

  function Perform(d: Desk, op: Op): Desk
    requires Allowed(d, op)
  {
    match op
    case Create(key, name) => d[key := Workspace(key, name, None, map[], [], None, None, None, None)]
    case SplitAt(key, target, direction, position, config, added) =>
      d[key := SplitPane(d[key], target, direction, config, added, position)]
    case Close(key, pane) => d[key := RemovePane(d[key], pane)]
    case Minimize(key, pane) => d[key := MinimizePane(d[key], pane)]
    case Restore(key, pane) => d[key := RestorePane(d[key], pane)]
    case Move(key, other, pane) =>
      var (from, to) := MovePane(d[key], d[other], pane);
      d[key := from][other := to]
  }

  predicate AllAllowed(d: Desk, ops: seq<Op>)
    decreases |ops|
  {
    ops == [] || (Allowed(d, ops[0]) && AllAllowed(Perform(d, ops[0]), ops[1..]))
  }

  function PerformAll(d: Desk, ops: seq<Op>): Desk
    requires AllAllowed(d, ops)
    decreases |ops|
  {
    if ops == [] then d else PerformAll(Perform(d, ops[0]), ops[1..])
  }

  /** Every workspace is sound and no pane is in two of them. */
  ghost predicate DeskOk(d: Desk) {
    && (forall k :: k in d ==> LayoutOk(d[k]))
    && (forall j, k, p :: j in d && k in d && p in d[j].panes && p in d[k].panes ==> j == k)
  }

  lemma OneChangeKeeps(d: Desk, key: string, ws: Workspace)
    requires DeskOk(d) && LayoutOk(ws)
    requires forall k, p :: k in d && k != key && p in d[k].panes ==> p !in ws.panes
    ensures DeskOk(d[key := ws])
  {
  }

  lemma MoveKeepsDesk(d: Desk, key: string, other: string, pane: string)
    requires DeskOk(d) && key in d && other in d && key != other
    ensures DeskOk(Perform(d, Move(key, other, pane)))
  {
    var (from, to) := MovePane(d[key], d[other], pane);
    if pane in d[key].panes {
      MoveKeepsIff(d[key], d[other], pane);
      MoveKeys(d[key], d[other], pane);
      assert pane !in d[other].panes;
      OneChangeKeeps(d, key, from);
      OneChangeKeeps(d[key := from], other, to);
    } else {
      assert d[key := d[key]][other := d[other]] == d;
    }
  }

  lemma SplitKeepsDesk(d: Desk, op: Op)
    requires DeskOk(d) && Allowed(d, op) && op.SplitAt?
    ensures DeskOk(Perform(d, op))
  {
    SplitKeepsIff(d[op.key], op.target, op.direction, op.config, op.added, op.position);
    OneChangeKeeps(d, op.key, SplitPane(d[op.key], op.target, op.direction, op.config, op.added, op.position));
  }

  lemma PerformKeeps(d: Desk, op: Op)
    requires DeskOk(d) && Allowed(d, op)
    ensures DeskOk(Perform(d, op))
  {
    match op
    case Create(key, name) => OneChangeKeeps(d, key, Workspace(key, name, None, map[], [], None, None, None, None));
    case SplitAt(key, target, direction, position, config, added) => SplitKeepsDesk(d, op);
    case Close(key, pane) => RemoveKeeps(d[key], pane); OneChangeKeeps(d, key, RemovePane(d[key], pane));
    case Minimize(key, pane) => MinimizeKeeps(d[key], pane); OneChangeKeeps(d, key, MinimizePane(d[key], pane));
    case Restore(key, pane) => RestoreKeeps(d[key], pane); OneChangeKeeps(d, key, RestorePane(d[key], pane));
    case Move(key, other, pane) => MoveKeepsDesk(d, key, other, pane);
  }

  lemma MoveConservesAll(d: Desk, key: string, other: string, pane: string)
    requires Allowed(d, Move(key, other, pane))
    ensures PanesOn(Perform(d, Move(key, other, pane))) == PanesOn(d)
  {
    var d' := Perform(d, Move(key, other, pane));
    forall p | p in PanesOn(d) ensures p in PanesOn(d') {
      var k :| k in d && p in d[k].panes;
      assert p in d'[k].panes || p in d'[other].panes;
    }
    forall p | p in PanesOn(d') ensures p in PanesOn(d) {
      var k :| k in d' && p in d'[k].panes;
      assert p in d[k].panes || p in d[key].panes;
    }
  }

  /** Panes appear only by splitting and vanish only by closing; a move keeps them all. */
  lemma PerformConserves(d: Desk, op: Op)
    requires Allowed(d, op)
    ensures var before, after := PanesOn(d), PanesOn(Perform(d, op));
      match op
      case SplitAt(key, target, direction, position, config, added) => after == before + {added}
      case Close(key, pane) => DeskOk(d) && pane in d[key].panes ==> after == before - {pane}
      case Move(key, other, pane) => after == before
      case Create(key, name) => after == before
      case Minimize(key, pane) => after == before
      case Restore(key, pane) => after == before
  {
    var d' := Perform(d, op);
    match op
    case SplitAt(key, target, direction, position, config, added) =>
      assert added in d'[key].panes;
      forall p | p in PanesOn(d) ensures p in PanesOn(d') {
        var k :| k in d && p in d[k].panes; assert p in d'[k].panes;
      }
    case Move(key, other, pane) =>
      MoveConservesAll(d, key, other, pane);
    case Close(key, pane) =>
      forall p | p in PanesOn(d) && p != pane ensures p in PanesOn(d') {
        var k :| k in d && p in d[k].panes; assert p in d'[k].panes;
      }
    case Create(key, name) =>
      forall p | p in PanesOn(d) ensures p in PanesOn(d') {
        var k :| k in d && p in d[k].panes; assert p in d'[k].panes;
      }
    case Minimize(key, pane) =>
      forall p | p in PanesOn(d) ensures p in PanesOn(d') {
        var k :| k in d && p in d[k].panes; assert p in d'[k].panes;
      }
    case Restore(key, pane) =>
      forall p | p in PanesOn(d) ensures p in PanesOn(d') {
        var k :| k in d && p in d[k].panes; assert p in d'[k].panes;
      }
  }

  /** The pane is somewhere on the desk, with this configuration. */
  ghost predicate Shows(d: Desk, pane: string, config: Config) {
    exists k :: k in d && pane in d[k].panes && d[k].panes[pane].config == config
  }

  lemma PerformKeepsConfigs(d: Desk, op: Op, pane: string, config: Config)
    requires Allowed(d, op) && Shows(Perform(d, op), pane, config)
    ensures Shows(d, pane, config) || (op.SplitAt? && op.added == pane && op.config == config)
  {
    var d' := Perform(d, op);
    var k :| k in d' && pane in d'[k].panes && d'[k].panes[pane].config == config;
    if op.Move? && op.pane in d[op.key].panes {
      if k == op.other && pane == op.pane { assert d[op.key].panes[pane].config == config; }
      else { assert d[k].panes[pane].config == config; }
    } else if k in d && pane in d[k].panes && !(op.SplitAt? && pane == op.added) {
      assert d[k].panes[pane].config == config;
    }
  }

  /** Every pane carries, wherever it has travelled, the configuration it was created with. */
  lemma {:induction false} PanesKeepTheirConfig(d: Desk, ops: seq<Op>, pane: string, config: Config)
    requires AllAllowed(d, ops) && Shows(PerformAll(d, ops), pane, config)
    ensures Shows(d, pane, config)
      || exists i :: 0 <= i < |ops| && ops[i].SplitAt? && ops[i].added == pane && ops[i].config == config
    decreases |ops|
  {
    if ops != [] {
      PanesKeepTheirConfig(Perform(d, ops[0]), ops[1..], pane, config);
      if Shows(Perform(d, ops[0]), pane, config) {
        PerformKeepsConfigs(d, ops[0], pane, config);
      } else {
        var i :| 0 <= i < |ops[1..]| && ops[1..][i].SplitAt? && ops[1..][i].added == pane
          && ops[1..][i].config == config;
        assert ops[i + 1] == ops[1..][i];
      }
    }
  }

  /** Over any run of allowed operations, from any sound desk. */
  lemma {:induction false} RunsKeepLayouts(d: Desk, ops: seq<Op>)
    requires DeskOk(d) && AllAllowed(d, ops)
    ensures DeskOk(PerformAll(d, ops))
    decreases |ops|
  {
    if ops != [] {
      PerformKeeps(d, ops[0]);
      RunsKeepLayouts(Perform(d, ops[0]), ops[1..]);
    }
  }

  // ---------------------------------------------------------------- the loops

  method ComputeVisibleLayout(ws: Workspace) returns (layout: Option<Node>)
    ensures layout == RestrictTo(ws.layout, SetOf(ws.minimized))
  {
    layout := ws.layout;
    if layout.None? { return; }
    var k := 0;
    while k < |ws.minimized| && layout.Some?
      invariant 0 <= k <= |ws.minimized| && RemoveAll(layout, ws.minimized[k..]) == VisibleLayout(ws)
    {
      layout := RemoveLeaf(layout.value, ws.minimized[k]);
      assert ws.minimized[k..][1..] == ws.minimized[k + 1..];
      k := k + 1;
    }
    RemoveAllFromNothing(ws.minimized[k..]);
    VisibleIsRestriction(ws);
  }

  lemma {:induction false} RemoveAllFromNothing(ids: seq<string>)
    ensures RemoveAll(None, ids) == None
    decreases |ids|
  {
    if ids != [] { RemoveAllFromNothing(ids[1..]); }
  }

  method ComputeRestore(ws: Workspace, pane: string) returns (r: Workspace)
    ensures r == RestorePane(ws, pane)
    ensures pane in ws.panes && pane in ws.minimized ==> r.layout == Some(ToTheRight(VisibleLayout(ws), pane))
  {
    if pane !in ws.panes || pane !in ws.minimized { return ws; }
    RestoreLandsOnTheRight(ws, pane);
    var rest := Without(ws.minimized, {pane});
    var base := if ws.layout.None? then None else RemoveLeaf(ws.layout.value, pane);
    var k := 0;
    while k < |rest| && base.Some?
      invariant 0 <= k <= |rest| && RemoveAll(base, rest[k..]) == RemoveAll(RemoveFrom(ws.layout, pane), rest)
    {
      base := RemoveLeaf(base.value, rest[k]);
      assert rest[k..][1..] == rest[k + 1..];
      k := k + 1;
    }
    RemoveAllFromNothing(rest[k..]);
    r := ws.(layout := Some(ToTheRight(base, pane)), minimized := rest);
  }

  // ---------------------------------------------------------------- reordering tabs

  function IndexOf(s: seq<string>, x: string): (r: int)
    ensures -1 <= r < |s|
    ensures r >= 0 ==> s[r] == x && x !in s[..r]
    ensures r < 0 ==> x !in s
  {
    if s == [] then -1
    else if s[0] == x then 0
    else var r := IndexOf(s[1..], x); if r < 0 then -1 else r + 1
  }

  /** `order` with the element at `from` taken out and put back so that it ends at `to`. */
  function Shifted(order: seq<string>, from: nat, to: nat): (r: seq<string>)
    requires from < |order| && to < |order|
    ensures |r| == |order| && r[to] == order[from]
  {
    var next := order[..from] + order[from + 1..];
    next[..to] + [order[from]] + next[to..]
  }

  lemma ShiftedPermutes(order: seq<string>, from: nat, to: nat)
    requires from < |order| && to < |order|
    ensures multiset(Shifted(order, from, to)) == multiset(order)
  {
    var x, next := [order[from]], order[..from] + order[from + 1..];
    assert order == order[..from] + x + order[from + 1..];
    assert multiset(order) == multiset(next) + multiset(x);
    assert next == next[..to] + next[to..];
    assert multiset(next[..to] + x + next[to..]) == multiset(next) + multiset(x);
  }

  /** Wherever an id is put back, everything else keeps its order. */
  lemma WithoutTwoWays(a: seq<string>, x: string, b: seq<string>, to: nat)
    requires to <= |a + b|
    ensures Without((a + b)[..to] + [x] + (a + b)[to..], {x}) == Without(a + [x] + b, {x})
  {
    var front, back := (a + b)[..to], (a + b)[to..];
    assert front + back == a + b;
    WithoutMiddle(a, x, b);
    WithoutMiddle(front, x, back);
  }

  lemma WithoutMiddle(a: seq<string>, x: string, b: seq<string>)
    ensures Without(a + [x] + b, {x}) == Without(a + b, {x})
  {
    var ax := a + [x];
    assert ax[..|ax| - 1] == a;
    assert Without(ax, {x}) == Without(a, {x}) + [];
    WithoutConcat(ax, b, {x});
    WithoutConcat(a, b, {x});
  }

  /** Shifting back restores the order. */
  lemma ShiftBack(order: seq<string>, from: nat, to: nat)
    requires from < |order| && to < |order|
    ensures Shifted(Shifted(order, from, to), to, from) == order
  {
    var next := order[..from] + order[from + 1..];
    var s := Shifted(order, from, to);
    assert s[..to] + s[to + 1..] == next;
    assert next[..from] == order[..from] && next[from..] == order[from + 1..];
  }

  /** The moved id ends at the index the target had; nothing else changes places with anything else. */
  method ReorderIds(order: seq<string>, moved: string, target: string) returns (r: seq<string>)
    ensures multiset(r) == multiset(order)
    ensures moved !in order || target !in order || moved == target ==> r == order
    ensures moved in order && target in order && moved != target ==>
      |r| == |order| && r[IndexOf(order, target)] == moved && Without(r, {moved}) == Without(order, {moved})
    ensures moved in order && target in order && moved != target ==>
      Shifted(r, IndexOf(order, target), IndexOf(order, moved)) == order
  {
    if moved == target { return order; }
    var from := IndexOf(order, moved);
    var to := IndexOf(order, target);
    if from < 0 || to < 0 { return order; }
    ShiftedPermutes(order, from, to);
    WithoutTwoWays(order[..from], moved, order[from + 1..], to);
    assert order[..from] + [moved] + order[from + 1..] == order;
    ShiftBack(order, from, to);
    var next := order[..from] + order[from + 1..];
    r := next[..to] + [moved] + next[to..];
  }
}
