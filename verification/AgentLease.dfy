/** The exclusive lease: grants, steals, nested reconnects and displaced connections. */
module AgentLease {
  import opened Chunks
  import opened FlowControl
  import opened Replay
  import opened AgentWorld
  import opened AgentInvariant
  import opened AgentSends
  import opened AgentDelivery

  /** A connection in the middle of its own bind: greeted, not yet established. */
  predicate Binding(w: World, c: nat) {
    c < |w.conns| && w.conns[c].greeted && !w.conns[c].established && !w.conns[c].ended
  }

  /** The client hello has been taken; nothing else has happened yet. */
  function Greeted(w: World, c: nat): World
    requires c < |w.conns|
  {
    w.(conns := w.conns[c := w.conns[c].(greeted := true)])
  }

  /** Only flags of one connection changed, and only where the invariant does not look. */
  lemma FlagsKeep(w: World, w': World, c: nat, m: Mode, m': Mode)
    requires Inv(w, m) && Grows(w, w', c, LeaseRevoked, m, m') && w'.conns[c].trace == w.conns[c].trace
    requires w'.conns[c].requests == w.conns[c].requests && w'.conns[c].lost == w.conns[c].lost
    requires w'.conns[c].revoked == w.conns[c].revoked
    requires m'.sc == m.sc && m'.sk == m.sk
    requires BoundOk(w') && FlagsOk(w', c, m')
    requires forall d :: 0 <= d < |w.conns| && d != c ==> FlagsOk(w', d, m')
    ensures Inv(w', m')
  {
    ConnsOnly(w, w', m, m');
    GrowthKeepsLedger(w, w', c, LeaseRevoked, m, m');
    GrowthKeepsAttaches(w, w', c, LeaseRevoked, m, m');
    PendingSame(w, w');
    forall d | 0 <= d < |w'.conns| ensures ConnOk(w', d, m') {
      assert ConnOk(w, d, m);
      assert FramesOk(w', d);
      assert AnswersOk(w', d, m');
    }
  }

  lemma GreetedKeeps(w: World, c: nat)
    requires Inv(w, Quiet) && c < |w.conns|
    ensures Inv(Greeted(w, c), Quiet)
  {
    var w' := Greeted(w, c);
    forall d | 0 <= d < |w.conns| ensures FlagsOk(w', d, Quiet) { assert ConnOk(w, d, Quiet); }
    FlagsKeep(w, w', c, Quiet, Quiet);
  }

  // ---------------------------------------------------------------- revocation

  function Displaced(w: World, c: nat): World
    requires c < |w.conns|
  {
    var conn := w.conns[c].(revoked := true, holdsLease := false);
    w.(conns := w.conns[c := Send(conn, LeaseRevoked).0.(ended := true)])
  }

  lemma DisplacedKeeps(w: World, c: nat, m: Mode)
    requires Inv(w, m) && c < |w.conns| && w.bound != Some(c) && !w.conns[c].ended
    requires m == Quiet.(x := m.x) && (m.x == -1 || m.x == c)
    ensures Inv(Displaced(w, c), Quiet)
  {
    var w' := Displaced(w, c);
    assert ConnOk(w, c, m);
    assert Grows(w, w', c, LeaseRevoked, m, Quiet);
    ConnsOnly(w, w', m, Quiet);
    GrowthKeepsLedger(w, w', c, LeaseRevoked, m, Quiet);
    GrowthKeepsAttaches(w, w', c, LeaseRevoked, m, Quiet);
    DisplacedKeepsConns(w, c, m);
  }

  lemma DisplacedKeepsConns(w: World, c: nat, m: Mode)
    requires Inv(w, m) && c < |w.conns| && w.bound != Some(c) && !w.conns[c].ended
    requires m == Quiet.(x := m.x) && (m.x == -1 || m.x == c)
    ensures ConnsOk(Displaced(w, c), Quiet) && BoundOk(Displaced(w, c))
  {
    var w' := Displaced(w, c);
    assert ConnOk(w, c, m);
    PendingSame(w, w');
    DisplacedKeepsConn(w, c, m);
    forall d | 0 <= d < |w'.conns| ensures ConnOk(w', d, Quiet) {
      assert ConnOk(w, d, m);
      if d != c {
        assert FramesOk(w', d);
        assert AnswersOk(w', d, Quiet);
      }
    }
  }

  lemma RevokeKeeps(w: World, c: nat, m: Mode)
    requires Inv(w, m) && c < |w.conns| && w.bound != Some(c)
    requires m == Quiet.(x := m.x) && (m.x == -1 || m.x == c)
    ensures Inv(Revoke(w, c), Quiet)
  {
    if w.conns[c].ended {
      LoseX(w, c, m, Quiet);
    } else {
      DisplacedKeeps(w, c, m);
      assert Revoke(w, c) == Displaced(w, c);
    }
  }

  lemma DisplacedKeepsConn(w: World, c: nat, m: Mode)
    requires Wf(w) && c < |w.conns| && ConnOk(w, c, m) && !w.conns[c].ended && m.sc == -1
    ensures ConnOk(Displaced(w, c), c, Quiet)
  {
    var w' := Displaced(w, c);
    var before, after := w.conns[c], w'.conns[c];
    if after.trace != before.trace {
      TraceOkSnoc(before.trace, LeaseRevoked);
      forall k: nat ensures AnswerCount(after.trace, k) == AnswerCount(before.trace, k) {
        AnswerCountSnoc(before.trace, LeaseRevoked, k);
      }
    }
    assert FramesOk(w', c);
    assert AnswersOk(w', c, Quiet);
  }

  // ---------------------------------------------------------------- the grant

  lemma BindsMoot(w: World, binds: seq<nat>, m: Mode)
    requires Inv(w, m) && w.bound.None?
    ensures Inv(w.(binds := binds), m)
  {
    var w' := w.(binds := binds);
    ConnsOnly(w, w', m, m);
    WindowsSame(w, w');
    PendingSame(w, w');
    forall c | 0 <= c < |w'.conns| ensures ConnOk(w', c, m) {
      assert ConnOk(w, c, m);
      assert FramesOk(w', c);
      assert AnswersOk(w', c, m);
    }
    forall i | 0 <= i < |w'.attaches| ensures AttachOk(w', i, m) {
      assert AttachOk(w, i, m);
      var a := w.attaches[i];
      if a.barrier.Settled? && a.barrier.answer.Some? { AnsweredStays(w, w', a, a.barrier.answer.value); }
    }
    forall n | 0 <= n < |w'.ledger| ensures SubOk(w', n, m) { assert SubOk(w, n, m); }
  }

  function Granted(w: World, c: nat): World
    requires c < |w.conns|
  {
    w.(bound := Some(c), conns := w.conns[c := w.conns[c].(holdsLease := true, established := true)])
  }

  lemma GrantedKeepsConns(w: World, c: nat)
    requires Inv(w, Quiet) && w.bound.None? && Binding(w, c)
    ensures ConnsOk(Granted(w, c), Quiet)
  {
    var w' := Granted(w, c);
    PendingSame(w, w');
    forall d | 0 <= d < |w'.conns| ensures ConnOk(w', d, Quiet) {
      assert ConnOk(w, d, Quiet);
      assert FramesOk(w', d);
      assert AnswersOk(w', d, Quiet);
    }
  }

  lemma GrantedKeepsAttach(w: World, c: nat, i: nat)
    requires Inv(w, Quiet) && w.bound.None? && Binding(w, c) && i < |w.attaches|
    ensures AttachOk(Granted(w, c), i, Quiet)
  {
    var w', a := Granted(w, c), w.attaches[i];
    assert AttachOk(w, i, Quiet);
    WindowsSame(w, w');
    if a.barrier.Settled? && a.barrier.answer.Some? { AnsweredStays(w, w', a, a.barrier.answer.value); }
  }

  lemma GrantedKeeps(w: World, c: nat)
    requires Inv(w, Quiet) && w.bound.None? && Binding(w, c) && w.binds != [] && w.binds[|w.binds| - 1] == c
    ensures Inv(Granted(w, c), Quiet)
  {
    var w' := Granted(w, c);
    GrantedKeepsConns(w, c);
    WindowsSame(w, w');
    forall id | id in w'.panes ensures PaneOk(w', id, Quiet) {
      assert PaneOk(w, id, Quiet);
      FeedStays(w, w', w.panes[id], w'.panes[id]);
    }
    forall h | 0 <= h < |w'.handles| ensures HandleOk(w', h, Quiet) { assert HandleOk(w, h, Quiet); }
    forall i | 0 <= i < |w'.attaches| ensures AttachOk(w', i, Quiet) { GrantedKeepsAttach(w, c, i); }
    forall i, j | 0 <= i < j < |w'.attaches| ensures Apart(w', i, j) { assert Apart(w, i, j); }
    forall n | 0 <= n < |w'.ledger| ensures SubOk(w', n, Quiet) { assert SubOk(w, n, Quiet); }
  }

  /** A binder displaced by a bind nested in its own steal: established in name only. */
  function Outrun(w: World, c: nat): World
    requires c < |w.conns|
  {
    w.(conns := w.conns[c := w.conns[c].(holdsLease := false, established := true)])
  }

  lemma OutrunKeeps(w: World, c: nat)
    requires Inv(w, Quiet) && c < |w.conns| && w.conns[c].revoked && w.conns[c].greeted
    ensures Inv(Outrun(w, c), Quiet)
  {
    var w' := Outrun(w, c);
    assert ConnOk(w, c, Quiet);
    forall d | 0 <= d < |w.conns| ensures FlagsOk(w', d, Quiet) { assert ConnOk(w, d, Quiet); }
    FlagsKeep(w, w', c, Quiet, Quiet);
  }

  // ---------------------------------------------------------------- binds, nested to any depth

  predicate Eligible(w: World, c: nat) {
    c < |w.conns| && !w.conns[c].ended && !w.conns[c].greeted
  }

  /** A connection no bind of anybody else touches: in the middle of its own, or over. */
  predicate Aside(w: World, c: nat) {
    c < |w.conns| && (Binding(w, c) || w.conns[c].ended)
  }

  ghost predicate AsideUntouched(w: World, w': World) {
    |w'.conns| == |w.conns| && forall c: nat :: Aside(w, c) ==> w'.conns[c] == w.conns[c]
  }

  lemma BindersAreNotBound(w: World, c: nat, m: Mode)
    requires Inv(w, m) && Binding(w, c)
    ensures w.bound != Some(c) && !w.conns[c].holdsLease && !w.conns[c].revoked
  {
    assert ConnOk(w, c, m);
    if w.bound.Some? { assert ConnOk(w, w.bound.value, m); }
  }

  /** The incumbent is detached, told, and gone. */
  lemma StealKeeps(w: World)
    requires Inv(w, Quiet) && w.bound.Some?
    ensures var w1 := UnbindInternal(w);
      !w1.conns[w.bound.value].ended && Inv(Revoke(w1, w.bound.value), Quiet) && Revoke(w1, w.bound.value).bound.None?
    ensures AsideUntouched(w, Revoke(UnbindInternal(w), w.bound.value))
  {
    var c := w.bound.value;
    UnbindKeeps(w, Quiet, Quiet.(x := c));
    RevokeKeeps(UnbindInternal(w), c, Quiet.(x := c));
    forall d: nat | Aside(w, d) ensures d != c { if Binding(w, d) { BindersAreNotBound(w, d, Quiet); } }
  }

  lemma {:induction false} EstablishKeeps(w: World, r: Reconnect)
    requires Inv(w, Quiet)
    ensures Inv(Establish(w, r), Quiet)
    ensures AsideUntouched(w, Establish(w, r))
    ensures Eligible(w, r.conn) ==> Establish(w, r).bound.Some?
    decreases r, 3
  {
    if Eligible(w, r.conn) {
      var c := r.conn;
      var w0 := Greeted(w, c);
      GreetedKeeps(w, c);
      assert ConnOk(w, c, Quiet);
      BindersAreNotBound(w0, c, Quiet);
      if w0.bound.None? {
        var w1 := w0.(binds := w0.binds + [c]);
        BindsMoot(w0, w1.binds, Quiet);
        GrantedKeeps(w1, c);
        assert Establish(w, r) == Granted(w1, c);
      } else {
        StealThenBind(w, r);
      }
    }
  }

  /** The store once the incumbent is gone and `c` waits for its grant. */
  function Stolen(w: World, c: nat): World
    requires Wf(w) && w.bound.Some? && c < |w.conns|
  {
    Revoke(UnbindInternal(Greeted(w, c)), w.bound.value).(binds := w.binds + [c])
  }

  /** The grant, or the self-displacement of a binder that was outrun. */
  function Concluded(w: World, r: Reconnect): World
    requires Wf(w) && r.conn < |w.conns|
  {
    if w.bound.None? then Granted(w, r.conn) else Outrun(Reconnects(Revoke(w, r.conn), r.after), r.conn)
  }

  lemma BindUnfolds(w: World, r: Reconnect)
    requires Wf(w) && r.conn < |w.conns| && w.bound.Some? && !w.conns[w.bound.value].ended && w.bound.value != r.conn
    requires !Reconnects(Stolen(w, r.conn), r.inner).conns[r.conn].ended
    ensures var c, w3 := r.conn, Reconnects(Stolen(w, r.conn), r.inner);
      Bind(Greeted(w, c), r) ==
        if w3.bound.None? then w3.(bound := Some(c)) else Reconnects(Revoke(w3, c), r.after)
  {
    var w0 := Greeted(w, r.conn);
    var binds := w0.binds + [r.conn];
    var w1 := UnbindInternal(w0.(binds := binds));
    assert w1 == UnbindInternal(w0).(binds := binds);
    assert !w1.conns[w.bound.value].ended;
    assert Stolen(w, r.conn) == Revoke(w1, w.bound.value);
  }

  lemma EstablishUnfolds(w: World, r: Reconnect)
    requires Wf(w) && Eligible(w, r.conn) && w.bound.Some?
    requires !w.conns[w.bound.value].ended && w.bound.value != r.conn
    requires var w3 := Reconnects(Stolen(w, r.conn), r.inner);
      && !w3.conns[r.conn].revoked && !w3.conns[r.conn].ended
      && (w3.bound.Some? ==> Reconnects(Revoke(w3, r.conn), r.after).conns[r.conn].revoked)
    ensures Establish(w, r) == Concluded(Reconnects(Stolen(w, r.conn), r.inner), r)
  {
    BindUnfolds(w, r);
    EstablishIsBind(w, r);
  }

  lemma EstablishIsBind(w: World, r: Reconnect)
    requires Wf(w) && Eligible(w, r.conn)
    ensures var c, w4 := r.conn, Bind(Greeted(w, r.conn), r);
      var conn := w4.conns[c].(holdsLease := !w4.conns[c].revoked, established := true);
      Establish(w, r) == w4.(conns := w4.conns[c := conn])
  {
  }

  lemma RevokedIsOver(w: World, c: nat)
    requires Wf(w) && c < |w.conns| && !w.conns[c].ended && !w.conns[c].revoked && w.bound != Some(c)
    ensures var w' := Revoke(w, c);
      w'.conns[c].revoked && w'.conns[c].ended && w'.conns[c].greeted == w.conns[c].greeted && w'.bound == w.bound
    ensures AsideUntouchedBut(w, Revoke(w, c), c)
  {
  }

  ghost predicate AsideUntouchedBut(w: World, w': World, c: nat) {
    |w'.conns| == |w.conns| && forall d: nat :: Aside(w, d) && d != c ==> w'.conns[d] == w.conns[d]
  }

  /** The binder a nested bind has outrun goes, and its own shutdown may bind again. */
  lemma {:induction false} OutrunUnfolds(w: World, r: Reconnect)
    requires Inv(w, Quiet) && Binding(w, r.conn) && w.bound.Some? && w.binds != []
    ensures var w1 := Revoke(w, r.conn);
      && Inv(Reconnects(w1, r.after), Quiet) && AsideUntouched(w1, Reconnects(w1, r.after))
      && Reconnects(w1, r.after).bound.Some?
      && w1.conns[r.conn].revoked && w1.conns[r.conn].greeted && w1.conns[r.conn].ended
    ensures AsideUntouchedBut(w, Reconnects(Revoke(w, r.conn), r.after), r.conn)
    decreases r, 0
  {
    var c := r.conn;
    BindersAreNotBound(w, c, Quiet);
    RevokeKeeps(w, c, Quiet);
    RevokedIsOver(w, c);
    var w1 := Revoke(w, c);
    ReconnectsKeep(w1, r.after);
    HeldStaysHeld(w1, r.after);
    forall d: nat | Aside(w, d) && d != c ensures Reconnects(w1, r.after).conns[d] == w.conns[d] {
      assert w1.conns[d] == w.conns[d];
      assert Aside(w1, d);
    }
  }

  lemma {:induction false} ConcludedKeeps(w: World, r: Reconnect)
    requires Inv(w, Quiet) && Binding(w, r.conn) && w.binds != []
    requires w.bound.None? ==> w.binds[|w.binds| - 1] == r.conn
    ensures Inv(Concluded(w, r), Quiet) && Concluded(w, r).bound.Some?
    ensures w.bound.Some? ==> Reconnects(Revoke(w, r.conn), r.after).conns[r.conn].revoked
    ensures AsideUntouchedBut(w, Concluded(w, r), r.conn)
    decreases r, 1
  {
    if w.bound.None? {
      GrantedKeeps(w, r.conn);
    } else {
      OutrunUnfolds(w, r);
      assert Aside(Revoke(w, r.conn), r.conn);
      OutrunKeeps(Reconnects(Revoke(w, r.conn), r.after), r.conn);
    }
  }

  lemma StolenKeeps(w: World, c: nat)
    requires Inv(w, Quiet) && w.bound.Some? && Eligible(w, c)
    ensures Inv(Stolen(w, c), Quiet) && Stolen(w, c).bound.None? && Binding(Stolen(w, c), c)
    ensures !w.conns[w.bound.value].ended && w.bound.value != c && !w.conns[c].revoked
    ensures AsideUntouched(w, Stolen(w, c))
  {
    var w0 := Greeted(w, c);
    GreetedKeeps(w, c);
    assert ConnOk(w, c, Quiet);
    assert Binding(w0, c);
    BindersAreNotBound(w0, c, Quiet);
    StealKeeps(w0);
    BindsMoot(Revoke(UnbindInternal(w0), w.bound.value), w.binds + [c], Quiet);
    forall d: nat | Aside(w, d) ensures Aside(w0, d) {}
  }

  lemma {:induction false} StealThenBind(w: World, r: Reconnect)
    requires Inv(w, Quiet) && Eligible(w, r.conn) && w.bound.Some?
    ensures Inv(Establish(w, r), Quiet)
    ensures AsideUntouched(w, Establish(w, r))
    ensures Establish(w, r).bound.Some?
    decreases r, 2
  {
    var c := r.conn;
    var w2 := Stolen(w, c);
    StolenKeeps(w, c);
    ReconnectsKeep(w2, r.inner);
    var w3 := Reconnects(w2, r.inner);
    assert Binding(w3, c);
    ConcludedKeeps(w3, r);
    EstablishUnfolds(w, r);
    AsideAllAlong(w, w2, w3, Establish(w, r), c);
  }

  lemma AsideAllAlong(w: World, w2: World, w3: World, w4: World, c: nat)
    requires AsideUntouched(w, w2) && AsideUntouched(w2, w3) && AsideUntouchedBut(w3, w4, c) && !Aside(w, c)
    ensures AsideUntouched(w, w4)
  {
    forall d: nat | Aside(w, d) ensures w4.conns[d] == w.conns[d] {
      assert Aside(w2, d) && Aside(w3, d);
    }
  }

  /** When no nested bind took the store, none was attempted. */
  lemma {:induction false} ReconnectsKeep(w: World, rs: seq<Reconnect>)
    requires Inv(w, Quiet)
    ensures Inv(Reconnects(w, rs), Quiet)
    ensures AsideUntouched(w, Reconnects(w, rs))
    ensures Reconnects(w, rs).bound.None? ==> Reconnects(w, rs).binds == w.binds
    ensures w.binds != [] ==> Reconnects(w, rs).binds != []
    decreases rs, 0
  {
    if rs != [] {
      EstablishKeeps(w, rs[0]);
      var w1 := Establish(w, rs[0]);
      ReconnectsKeep(w1, rs[1..]);
      if w1.bound.Some? { HeldStaysHeld(w1, rs[1..]); }
    }
  }

  lemma {:induction false} HeldStaysHeld(w: World, rs: seq<Reconnect>)
    requires Inv(w, Quiet) && w.bound.Some?
    ensures Reconnects(w, rs).bound.Some?
    decreases rs, 0
  {
    if rs != [] {
      EstablishKeeps(w, rs[0]);
      assert Establish(w, rs[0]).bound.Some?;
      HeldStaysHeld(Establish(w, rs[0]), rs[1..]);
    }
  }

  // ---------------------------------------------------------------- the displaced are told

  /** The next frame sent on the connection goes out. */
  predicate NextSendWorks(c: Conn) {
    c.sink == [] || c.sink[0]
  }

  /** Told, and over. */
  predicate Told(before: Conn, after: Conn) {
    after.trace == before.trace + [LeaseRevoked] && after.revoked && after.ended && !after.holdsLease
  }

  lemma RevokedIsTold(w: World, c: nat)
    requires Wf(w) && c < |w.conns| && !w.conns[c].ended
    ensures Revoke(w, c).conns[c].ended
    ensures NextSendWorks(w.conns[c]) ==> Told(w.conns[c], Revoke(w, c).conns[c])
  {
  }

  lemma StolenIsTold(w: World, c: nat)
    requires Inv(w, Quiet) && w.bound.Some? && Eligible(w, c)
    ensures w.bound.value != c && Stolen(w, c).conns[w.bound.value].ended
    ensures NextSendWorks(w.conns[w.bound.value]) ==>
      Told(w.conns[w.bound.value], Stolen(w, c).conns[w.bound.value])
  {
    StolenKeeps(w, c);
  }

  /**
   * The holder that a hello displaces ends, and is told: unless that send fails, its trace goes on with
   * the revocation and with nothing else, whatever is nested in the shutdowns it causes.
   */
  lemma DisplacedHolderIsTold(w: World, r: Reconnect)
    requires Inv(w, Quiet) && Eligible(w, r.conn) && w.bound.Some?
    ensures Establish(w, r).conns[w.bound.value].ended
    ensures NextSendWorks(w.conns[w.bound.value]) ==>
      Told(w.conns[w.bound.value], Establish(w, r).conns[w.bound.value])
  {
    var c, a := r.conn, w.bound.value;
    var w2 := Stolen(w, c);
    StolenKeeps(w, c);
    StolenIsTold(w, c);
    ReconnectsKeep(w2, r.inner);
    var w3 := Reconnects(w2, r.inner);
    assert Binding(w3, c);
    ConcludedKeeps(w3, r);
    EstablishUnfolds(w, r);
    assert Aside(w2, a) && Aside(w3, a);
  }

  /** A binder ends its hello holding the store, with nothing sent; or outrun, over, and told. */
  lemma BinderHoldsOrIsTold(w: World, r: Reconnect)
    requires Inv(w, Quiet) && Eligible(w, r.conn)
    ensures var before, after := w.conns[r.conn], Establish(w, r).conns[r.conn];
      || (after.holdsLease && !after.ended && after.trace == before.trace && Establish(w, r).bound == Some(r.conn))
      || (!after.holdsLease && after.ended && (NextSendWorks(before) ==> Told(before, after)))
  {
    assert ConnOk(w, r.conn, Quiet);
    if w.bound.Some? { StealingBinderIsTold(w, r); }
  }

  lemma StealingBinderIsTold(w: World, r: Reconnect)
    requires Inv(w, Quiet) && Eligible(w, r.conn) && w.bound.Some?
    ensures var before, after := w.conns[r.conn], Establish(w, r).conns[r.conn];
      || (after.holdsLease && !after.ended && after.trace == before.trace && Establish(w, r).bound == Some(r.conn))
      || (!after.holdsLease && after.ended && (NextSendWorks(before) ==> Told(before, after)))
  {
    var c := r.conn;
    var w2 := Stolen(w, c);
    StolenKeeps(w, c);
    ReconnectsKeep(w2, r.inner);
    var w3 := Reconnects(w2, r.inner);
    assert Binding(w3, c);
    assert w3.conns[c] == Greeted(w, c).conns[c];
    ConcludedKeeps(w3, r);
    EstablishUnfolds(w, r);
    if w3.bound.Some? {
      OutrunUnfolds(w3, r);
      assert Aside(Revoke(w3, c), c);
      RevokedIsTold(w3, c);
    }
  }
}
