/** What a client may rely on, from the frames it was sent alone: the right answer, and one that comes. */
module AgentPromises {
  import opened Chunks
  import opened FlowControl
  import opened Replay
  import opened AgentWorld
  import opened AgentInvariant
  import opened AgentHistory
  import opened AgentRuns
  import opened AgentTheorems
  import opened AgentAnswers

  // ---------------------------------------------------------------- every attach was asked for

  /** Event `p` of the run is the attach request that record `i`, now `a`, was made for. */
  ghost predicate AskedBy(events: seq<Event>, p: nat, i: nat, a: Attach) {
    && p < |events| && events[p].Inbound? && events[p].c == a.conn
    && events[p].item.Req? && events[p].item.request.AttachTo? && events[p].item.request.id == a.id
    && var asked := After(events[..p]);
    && |asked.attaches| == i && a.conn < |asked.conns| && asked.conns[a.conn].requests == a.request
  }

  ghost predicate TellsFrom(events: seq<Event>, p: nat, i: nat)
    requires i < |After(events).attaches|
  {
    var a := After(events).attaches[i];
    && AskedBy(events, p, i, a)
    && BarrierFits(After(events[..p]), events[p].item.request.snapshotFails, After(events), a)
  }

  lemma OpenFitsLater(asked: World, w: World, w': World, a: Attach, a': Attach)
    requires OpenFits(asked, w, a) && a'.(barrier := Waiting) == a.(barrier := Waiting)
    requires ConnsGoOn(w, w') && HandlesGoOn(w, w') && w.ledger <= w'.ledger
    ensures OpenFits(asked, w', a')
  {
    assert HandleGoesOn(w.handles[a.handle], w'.handles[a.handle]);
    var mark := w.ledger[a.sub].mark;
    assert w'.handles[a.handle].emitted[..mark] == w.handles[a.handle].emitted[..mark];
  }

  lemma StepFacts(front: seq<Event>, e: Event)
    ensures After(front + [e]) == Step(After(front), e)
    ensures Inv(After(front), Quiet) && Later(After(front), After(front + [e]))
    ensures StepTells(After(front), e, After(front + [e]))
  {
    AfterOneMore(front, e);
    EveryRun(front);
    StepLater(After(front), e);
    StepTellsAll(After(front), e);
  }

  lemma TellsStill(front: seq<Event>, e: Event, p: nat, i: nat)
    requires i < |After(front).attaches| && TellsFrom(front, p, i)
    ensures i < |After(front + [e]).attaches| && TellsFrom(front + [e], p, i)
  {
    StepFacts(front, e);
    var w, w' := After(front), After(front + [e]);
    assert (front + [e])[..p] == front[..p];
    if Open(w'.attaches[i]) { OpenFitsLater(After(front[..p]), w, w', w.attaches[i], w'.attaches[i]); }
  }

  lemma TellsAtFirst(front: seq<Event>, e: Event)
    requires |After(front + [e]).attaches| > |After(front).attaches|
    ensures TellsFrom(front + [e], |front|, |After(front).attaches|)
  {
    StepFacts(front, e);
    assert (front + [e])[..|front|] == front;
  }

  lemma {:induction false} EveryAttachTells(events: seq<Event>, i: nat)
    requires i < |After(events).attaches|
    ensures exists p: nat :: TellsFrom(events, p, i)
    decreases |events|
  {
    if events != [] {
      var front, e := events[..|events| - 1], events[|events| - 1];
      assert events == front + [e];
      OneAttachAtMost(front, e);
      if i < |After(front).attaches| {
        EveryAttachTells(front, i);
        var p: nat :| TellsFrom(front, p, i);
        TellsStill(front, e, p, i);
      } else {
        TellsAtFirst(front, e);
      }
    }
  }

  lemma OneAttachAtMost(front: seq<Event>, e: Event)
    ensures |After(front).attaches| <= |After(front + [e]).attaches| <= |After(front).attaches| + 1
  {
    StepFacts(front, e);
  }

  // ---------------------------------------------------------------- every answer fits its request

  /** Event `p` is the request that response `f` on connection `c` answers, and the answer fits it. */
  ghost predicate ExplainedBy(events: seq<Event>, p: nat, c: nat, f: Frame) {
    && f.Response? && p < |events| && events[p].Inbound? && events[p].c == c && events[p].item.Req?
    && var asked := After(events[..p]);
    && c < |asked.conns| && asked.conns[c].requests == f.request
    && Fits(asked, events[p].item.request, After(events), f.reply)
  }

  lemma ExplainedStill(front: seq<Event>, e: Event, p: nat, c: nat, f: Frame)
    requires ExplainedBy(front, p, c, f)
    ensures ExplainedBy(front + [e], p, c, f)
  {
    StepFacts(front, e);
    assert (front + [e])[..p] == front[..p];
    FitsLater(After(front[..p]), front[p].item.request, After(front), After(front + [e]), f.reply);
  }

  /** A settled attach answers what it was asked, from the record it left. */
  lemma SettleExplained(front: seq<Event>, i: nat, c: nat, f: Frame)
    requires Origin(After(front), Settle(i), After(front + [Settle(i)]), c, f)
    ensures exists p: nat :: ExplainedBy(front + [Settle(i)], p, c, f)
  {
    var e := Settle(i);
    var w := After(front);
    var a := w.attaches[i];
    StepFacts(front, e);
    EveryAttachTells(front, i);
    var p: nat :| TellsFrom(front, p, i);
    var asked := After(front[..p]);
    assert (front + [e])[..p] == front[..p];
    assert AttachOk(w, i, Quiet);
    SettledFits(asked, front[p].item.request.snapshotFails, w, After(front + [e]), i, f.reply);
    assert ExplainedBy(front + [e], p, c, f);
  }

  lemma SettledFits(asked: World, fails: bool, w: World, w': World, i: nat, reply: Reply)
    requires CanSettle(w, i) && AttachOk(w, i, Quiet) && NoneRevived(w, w')
    requires BarrierFits(asked, fails, w, w.attaches[i]) && SettleFits(w, w.attaches[i], reply)
    ensures AttachFits(asked, w.attaches[i].id, fails, w', reply)
  {
  }

  lemma JustServed(front: seq<Event>, e: Event, c: nat, f: Frame)
    requires Origin(After(front), e, After(front + [e]), c, f) && e.Inbound?
    ensures exists p: nat :: ExplainedBy(front + [e], p, c, f)
  {
    assert (front + [e])[..|front|] == front;
    assert ExplainedBy(front + [e], |front|, c, f);
  }

  lemma NewConnIsBlank(w: World, e: Event, c: nat)
    requires Wf(w) && |w.conns| <= c < |Step(w, e).conns|
    ensures Responses(Step(w, e).conns[c].trace) == []
  {
    assert e.Accept?;
    assert NewConn.trace[..0] == [];
  }

  lemma {:induction false} ListedAnswersFit(events: seq<Event>, c: nat, f: Frame)
    requires c < |After(events).conns| && f in Responses(After(events).conns[c].trace)
    ensures exists p: nat :: ExplainedBy(events, p, c, f)
    decreases |events|
  {
    if events != [] {
      var front, e := events[..|events| - 1], events[|events| - 1];
      assert events == front + [e];
      StepFacts(front, e);
      var w, w' := After(front), After(events);
      if c >= |w.conns| { NewConnIsBlank(w, e, c); }
      if f in Responses(w.conns[c].trace) {
        ListedAnswersFit(front, c, f);
        var p: nat :| ExplainedBy(front, p, c, f);
        ExplainedStill(front, e, p, c, f);
      } else {
        var d: nat, g :| Answers1(w, w', d, g) && Origin(w, e, w', d, g);
        assert d == c && g == f;
        if e.Settle? { SettleExplained(front, e.i, c, f); } else { JustServed(front, e, c, f); }
      }
    }
  }

  /**
   * Over every run, every response in a trace answers a request of its own connection, and is the answer
   * that fits it: in particular a snapshot is the serialization of exactly what the pane asked for had
   * emitted at the request, and an attach is refused only for the reasons there are.
   */
  lemma EveryAnswerFits(events: seq<Event>, c: nat, n: nat)
    requires c < |After(events).conns| && n < |After(events).conns[c].trace|
    requires After(events).conns[c].trace[n].Response?
    ensures exists p: nat :: ExplainedBy(events, p, c, After(events).conns[c].trace[n])
  {
    ResponseIsListed(After(events).conns[c].trace, n);
    ListedAnswersFit(events, c, After(events).conns[c].trace[n]);
  }

  // ---------------------------------------------------------------- a healthy attach is answered

  /** In flight, answered, or excused: the pane has gone, or the connection ended or lost a frame. */
  ghost predicate Fair(w: World, i: nat, c: nat, h: nat) {
    && i < |w.attaches| && w.attaches[i].conn == c < |w.conns| && w.attaches[i].handle == h < |w.handles|
    && (|| Open(w.attaches[i])
        || (w.attaches[i].barrier.Settled? && w.attaches[i].barrier.answer.Some?)
        || !Live(w, h) || w.conns[c].ended || w.conns[c].lost > 0)
  }

  lemma StepStaysFair(w: World, e: Event, i: nat, c: nat, h: nat)
    requires Inv(w, Quiet) && Fair(w, i, c, h)
    ensures Fair(Step(w, e), i, c, h)
  {
    StepTellsAll(w, e);
    StepLater(w, e);
    FairLater(w, e, Step(w, e), i, c, h);
  }

  lemma FairLater(w: World, e: Event, w': World, i: nat, c: nat, h: nat)
    requires Inv(w, Quiet) && Fair(w, i, c, h) && Later(w, w') && AttachesMove(w, e, w') && NoneRevived(w, w')
    ensures Fair(w', i, c, h)
  {
    assert ConnGoesOn(w.conns[c], w'.conns[c]) && AttachGoesOn(w.attaches[i], w'.attaches[i]);
    assert AttachOk(w, i, Quiet);
  }

  lemma {:induction false} RunStaysFair(w: World, events: seq<Event>, i: nat, c: nat, h: nat)
    requires Inv(w, Quiet) && Fair(w, i, c, h)
    ensures Fair(Run(w, events), i, c, h)
    decreases |events|
  {
    if events != [] {
      StepKeeps(w, events[0]);
      StepStaysFair(w, events[0], i, c, h);
      RunStaysFair(Step(w, events[0]), events[1..], i, c, h);
    }
  }

  /** Position `n` holds the one response to request `k`. */
  ghost predicate OnlyAnswer(trace: seq<Frame>, k: nat, n: nat) {
    forall q :: 0 <= q < |trace| && trace[q].Response? && trace[q].request == k ==> q == n
  }

  lemma {:induction false} CountOfTwo(trace: seq<Frame>, k: nat, n: nat, q: nat)
    requires n < q < |trace| && trace[n].Response? && trace[n].request == k
    requires trace[q].Response? && trace[q].request == k
    ensures AnswerCount(trace, k) >= 2
    decreases |trace|
  {
    if q == |trace| - 1 { CountOfOne(trace[..q], k, n); } else { CountOfTwo(trace[..|trace| - 1], k, n, q); }
  }

  lemma {:induction false} CountOfOne(trace: seq<Frame>, k: nat, n: nat)
    requires n < |trace| && trace[n].Response? && trace[n].request == k
    ensures AnswerCount(trace, k) >= 1
    decreases |trace|
  {
    if n < |trace| - 1 { CountOfOne(trace[..|trace| - 1], k, n); }
  }

  lemma AtMostOneMeansOnly(trace: seq<Frame>, k: nat, n: nat)
    requires n < |trace| && trace[n].Response? && trace[n].request == k && AnswerCount(trace, k) <= 1
    ensures OnlyAnswer(trace, k, n)
  {
    forall q | 0 <= q < |trace| && trace[q].Response? && trace[q].request == k ensures q == n {
      if q < n { CountOfTwo(trace, k, q, n); }
      if n < q { CountOfTwo(trace, k, n, q); }
    }
  }

  lemma HealthyStartIsFair(w: World, c: nat, id: string)
    requires Inv(w, Quiet) && CanAttach(w, c, id)
    ensures Fair(Step(w, Inbound(c, Req(AttachTo(id, false)))), |w.attaches|, c, w.panes[id].handle)
  {
    assert PaneOk(w, id, Quiet);
  }

  /**
   * A healthy attach is answered with its snapshot: whatever happened since, once the terminals have
   * caught up, a live connection that lost no frame has exactly one response to it, the snapshot of
   * what the pane had emitted at the request, as long as the pane is still the same live pane.
   */
  lemma HealthyAttachIsAnswered(before: seq<Event>, c: nat, id: string, after: seq<Event>)
    requires CanAttach(After(before), c, id)
    requires var w := After(before + ([Inbound(c, Req(AttachTo(id, false)))] + after));
      && CaughtUp(w) && Live(w, After(before).panes[id].handle)
      && c < |w.conns| && !w.conns[c].ended && w.conns[c].lost == 0
    ensures var asked := After(before);
      var w := After(before + ([Inbound(c, Req(AttachTo(id, false)))] + after));
      && asked.panes[id].handle < |asked.handles|
      && exists n: nat ::
           Reconstructs(asked, w, c, asked.panes[id].handle, n)
           && OnlyAnswer(w.conns[c].trace, asked.conns[c].requests, n)
  {
    var asked, e := After(before), Inbound(c, Req(AttachTo(id, false)));
    var w1, i := Step(asked, e), |asked.attaches|;
    RunConcat(Init, before, [e] + after);
    assert ([e] + after)[1..] == after;
    var w := Run(w1, after);
    EveryRun(before);
    StepKeeps(asked, e);
    HealthyStartIsFair(asked, c, id);
    RunStaysFair(w1, after, i, c, asked.panes[id].handle);
    EveryRun(before + ([e] + after));
    CaughtUpIsSettled(w, i);
    var n := w.attaches[i].barrier.answer.value;
    ExactlyOnce(before, c, id, after, n);
    assert PaneOk(asked, id, Quiet);
    OneAnswerPerRequest(before + ([e] + after), c, asked.conns[c].requests);
    AtMostOneMeansOnly(w.conns[c].trace, asked.conns[c].requests, n);
  }

  lemma CaughtUpIsSettled(w: World, i: nat)
    requires Inv(w, Quiet) && CaughtUp(w) && i < |w.attaches|
    ensures w.attaches[i].barrier.Settled?
  {
    if w.attaches[i].barrier.Waiting? { WaitingCanGoOn(w, i); }
  }

  // ---------------------------------------------------------------- and it can always get there

  /** What the agent does by itself: terminals parse, continuations run. */
  predicate Progress(e: Event) {
    e.Parsed? || e.Settle?
  }

  ghost predicate SameFeeds(w: World, w': World) {
    && w'.panes.Keys == w.panes.Keys
    && forall id :: id in w.panes ==> w'.panes[id].replay == w.panes[id].replay
  }

  function Unparsed(w: World, id: string): nat {
    if id in w.panes && CanParse(w.panes[id].replay) then |w.panes[id].replay.fed| - w.panes[id].replay.parsed else 0
  }

  /** Panes are the same, and all but `id` are as they were. */
  ghost predicate OthersStand(w: World, w': World, id: string) {
    && w'.panes.Keys == w.panes.Keys
    && forall other :: other in w.panes && other != id ==> w'.panes[other] == w.panes[other]
  }

  lemma ParseTakesOne(w: World, id: string)
    requires Wf(w) && Unparsed(w, id) > 0
    ensures OthersStand(w, Step(w, Parsed(id)), id) && Unparsed(Step(w, Parsed(id)), id) == Unparsed(w, id) - 1
  {
  }

  lemma RunFirst(w: World, e: Event, rest: seq<Event>)
    requires Wf(w)
    ensures Run(w, [e] + rest) == Run(Step(w, e), rest)
  {
    assert ([e] + rest)[1..] == rest;
  }

  predicate AllProgress(events: seq<Event>) {
    forall e :: e in events ==> Progress(e)
  }

  lemma OneMoreProgress(e: Event, rest: seq<Event>)
    requires Progress(e) && AllProgress(rest)
    ensures AllProgress([e] + rest)
  {
  }

  /** One pane catches up; the others are as they were. */
  lemma {:induction false} OnePaneCatchesUp(w: World, id: string) returns (more: seq<Event>)
    requires Wf(w)
    ensures AllProgress(more) && Unparsed(Run(w, more), id) == 0 && OthersStand(w, Run(w, more), id)
    decreases Unparsed(w, id)
  {
    if Unparsed(w, id) == 0 {
      more := [];
    } else {
      ParseTakesOne(w, id);
      var w1 := Step(w, Parsed(id));
      var rest := OnePaneCatchesUp(w1, id);
      more := [Parsed(id)] + rest;
      RunFirst(w, Parsed(id), rest);
      OneMoreProgress(Parsed(id), rest);
      StandTransitive(w, w1, Run(w1, rest), id);
    }
  }

  lemma StandTransitive(u: World, v: World, w: World, id: string)
    requires OthersStand(u, v, id) && OthersStand(v, w, id)
    ensures OthersStand(u, w, id)
  {
  }

  lemma {:induction false} AllPanesCatchUp(w: World, todo: set<string>) returns (more: seq<Event>)
    requires Wf(w) && forall id :: id in w.panes && id !in todo ==> Unparsed(w, id) == 0
    ensures AllProgress(more)
    ensures forall id :: id in Run(w, more).panes ==> Unparsed(Run(w, more), id) == 0
    decreases todo
  {
    if todo == {} {
      more := [];
    } else {
      var id :| id in todo;
      var first := OnePaneCatchesUp(w, id);
      var w1 := Run(w, first);
      var rest := AllPanesCatchUp(w1, todo - {id});
      more := first + rest;
      RunConcat(w, first, rest);
    }
  }

  lemma SettleLeavesFeeds(w: World, i: nat)
    requires Wf(w)
    ensures SameFeeds(w, SettleAttach(w, i)) && |SettleAttach(w, i).attaches| == |w.attaches|
    ensures i < |w.attaches| ==>
      SettleAttach(w, i).attaches[i].barrier.Waiting? || SettleAttach(w, i).attaches[i].barrier.Settled?
    ensures forall j :: 0 <= j < |w.attaches| && j != i ==> SettleAttach(w, i).attaches[j] == w.attaches[j]
  {
    if CanSettle(w, i) {
      var a := w.attaches[i];
      if a.barrier.Ready? && a.id in w.panes && w.panes[a.id].handle == a.handle && !w.conns[a.conn].ended {
        ReleaseLeavesFeeds(Replied(w, i), a);
      }
    }
  }

  lemma ReleaseLeavesFeeds(w: World, a: Attach)
    requires Wf(w)
    ensures SameFeeds(w, Release(w, a)) && Release(w, a).attaches == w.attaches
  {
    if a.id in w.panes {
      var rec := w.panes[a.id];
      var open := rec.(holds := if rec.holds > 0 then rec.holds - 1 else 0);
      DeliverAllLeavesFeeds(w.(panes := w.panes[a.id := open.(held := [])]), a.id, a.handle, rec.held);
    }
  }

  lemma {:induction false} DeliverAllLeavesFeeds(w: World, id: string, h: nat, chunks: seq<string>)
    requires Wf(w)
    ensures SameFeeds(w, DeliverAll(w, id, h, chunks))
    decreases |chunks|
  {
    if chunks != [] {
      var w1 := DeliverData(w, id, h, chunks[0]);
      DeliverDataLeavesFeeds(w, id, h, chunks[0]);
      DeliverAllLeavesFeeds(w1, id, h, chunks[1..]);
    }
  }

  lemma DeliverDataLeavesFeeds(w: World, id: string, h: nat, text: string)
    requires Wf(w)
    ensures SameFeeds(w, DeliverData(w, id, h, text))
  {
    var w1 := Deliver(w, Data(id, h, text));
    assert SameFeeds(w, w1);
    if w1.bound.Some? { assert SameFeeds(w1, DeliverData(w, id, h, text)); }
  }

  /** No feed is left to parse, and the first `i` attaches have no continuation left to run. */
  ghost predicate CaughtUpTo(w: World, i: nat) {
    && i <= |w.attaches|
    && (forall id :: id in w.panes ==> Unparsed(w, id) == 0)
    && (forall j :: 0 <= j < i ==> w.attaches[j].barrier.Waiting? || w.attaches[j].barrier.Settled?)
  }

  lemma UpToAllIsAll(w: World)
    requires Wf(w) && CaughtUpTo(w, |w.attaches|)
    ensures CaughtUp(w)
  {
    forall id | id in w.panes ensures !CanParse(w.panes[id].replay) { assert Unparsed(w, id) == 0; }
  }

  lemma OneMoreSettled(w: World, i: nat)
    requires Wf(w) && CaughtUpTo(w, i) && i < |w.attaches|
    ensures CaughtUpTo(SettleAttach(w, i), i + 1) && |SettleAttach(w, i).attaches| == |w.attaches|
  {
    SettleLeavesFeeds(w, i);
    var w1 := SettleAttach(w, i);
    forall id | id in w1.panes ensures Unparsed(w1, id) == 0 { assert Unparsed(w, id) == 0; }
  }

  lemma {:induction false} AllAttachesSettle(w: World, i: nat) returns (more: seq<Event>)
    requires Wf(w) && CaughtUpTo(w, i)
    ensures AllProgress(more) && CaughtUp(Run(w, more))
    decreases |w.attaches| - i
  {
    if i == |w.attaches| {
      more := [];
      UpToAllIsAll(w);
    } else {
      var w1 := SettleAttach(w, i);
      OneMoreSettled(w, i);
      var rest := AllAttachesSettle(w1, i + 1);
      more := [Settle(i)] + rest;
      RunFirst(w, Settle(i), rest);
      OneMoreProgress(Settle(i), rest);
    }
  }

  /** From every reachable state the agent can catch up by itself, without anything from outside. */
  lemma EveryRunCanCatchUp(events: seq<Event>) returns (more: seq<Event>)
    ensures AllProgress(more) && CaughtUp(After(events + more))
  {
    var w := After(events);
    var parse := AllPanesCatchUp(w, w.panes.Keys);
    var settle := AllAttachesSettle(Run(w, parse), 0);
    more := parse + settle;
    RunConcat(w, parse, settle);
    RunConcat(Init, events, more);
  }
}
