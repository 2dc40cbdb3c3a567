/**
 * The per-pane replay terminal. Writes are parsed later, one chunk at a time and in order; a
 * snapshot is answered inside the parse callback of the last chunk issued before the request.
 */
module Replay {
  import opened Chunks

  /**
   * What the serializer answers. `Serialized(text)` stands for the serializer applied to a terminal
   * that has parsed exactly `text`, so a statement about it holds for every serializer.
   */
  datatype Snapshot = Serialized(text: string) | Degraded

  /** A pending snapshot request: the sequence number it waits for and whose promise it settles. */
  datatype Waiter = Waiter(target: nat, token: nat)

  /** `fed` is every chunk handed to the terminal; the first `parsed` of them are in its buffer. */
  datatype ReplayState = ReplayState(fed: seq<string>, parsed: nat, waiters: seq<Waiter>, disposed: bool)

  const NewReplay := ReplayState([], 0, [], false)

  function Above(waiters: seq<Waiter>, n: nat): (kept: seq<Waiter>)
    ensures forall w :: w in kept <==> w in waiters && w.target > n
  {
    if waiters == [] then []
    else if waiters[0].target > n then [waiters[0]] + Above(waiters[1..], n)
    else Above(waiters[1..], n)
  }

  function Tokens(waiters: seq<Waiter>): set<nat> {
    set w | w in waiters :: w.token
  }

  function TokensUpTo(waiters: seq<Waiter>, n: nat): set<nat> {
    set w | w in waiters && w.target <= n :: w.token
  }

  function Answers(tokens: set<nat>, snapshot: Snapshot): map<nat, Snapshot> {
    map t | t in tokens :: snapshot
  }

  lemma TokensSnoc(waiters: seq<Waiter>, last: Waiter)
    ensures Tokens(waiters + [last]) == Tokens(waiters) + {last.token}
  {
    assert forall w :: w in waiters + [last] <==> w in waiters || w == last;
  }

  function Feed(r: ReplayState, data: string): ReplayState {
    if r.disposed || data == "" then r else r.(fed := r.fed + [data])
  }

  predicate CanParse(r: ReplayState) {
    !r.disposed && r.parsed < |r.fed|
  }

  function Screen(r: ReplayState): Snapshot {
    if r.parsed <= |r.fed| then Serialized(Flatten(r.fed[..r.parsed])) else Degraded
  }

  /** The terminal parses its next chunk and runs that chunk's callback. */
  function ParseNext(r: ReplayState): ReplayState
    requires CanParse(r)
  {
    r.(parsed := r.parsed + 1, waiters := Above(r.waiters, r.parsed + 1))
  }

  /** A snapshot request: answered at once when the terminal has caught up, else it waits. */
  function AskSnapshot(r: ReplayState, token: nat): (ReplayState, Option<Snapshot>) {
    if r.disposed then (r, Some(Degraded))
    else if r.parsed >= |r.fed| then (r, Some(Screen(r)))
    else (r.(waiters := r.waiters + [Waiter(|r.fed|, token)]), None)
  }

  function Dispose(r: ReplayState): ReplayState {
    r.(disposed := true, waiters := if r.disposed then r.waiters else [])
  }

  ghost predicate TokensApart(waiters: seq<Waiter>) {
    forall i, j :: 0 <= i < j < |waiters| ==> waiters[i].token != waiters[j].token
  }

  /** The terminal is never ahead of its input and no request is waiting for the past. */
  ghost predicate ReplayOk(r: ReplayState) {
    && r.parsed <= |r.fed|
    && forall w :: w in r.waiters ==> r.parsed < w.target <= |r.fed|
  }

  lemma FeedKeeps(r: ReplayState, data: string)
    requires ReplayOk(r)
    ensures ReplayOk(Feed(r, data))
    ensures !r.disposed ==> Flatten(Feed(r, data).fed) == Flatten(r.fed) + data
    ensures r.fed <= Feed(r, data).fed
  {
    FlattenSnoc(r.fed, data);
    if data == "" { assert Flatten(r.fed) + data == Flatten(r.fed); }
  }

  /** An empty write leaves nothing to wait for. */
  lemma EmptyWriteDelaysNobody(r: ReplayState, token: nat)
    ensures AskSnapshot(Feed(r, ""), token) == AskSnapshot(r, token)
  {
  }

  /**
   * A parse step settles exactly the requests whose barrier it reaches, and what it shows them is
   * the text of the chunks fed before the request and nothing later.
   */
  lemma ParseSettlesItsBarrier(r: ReplayState)
    requires ReplayOk(r) && CanParse(r)
    ensures ReplayOk(ParseNext(r))
    ensures forall w :: w in r.waiters && w.target <= r.parsed + 1 ==>
      Screen(ParseNext(r)) == Serialized(Flatten(r.fed[..w.target]))
    ensures forall w :: w in r.waiters ==> (w in ParseNext(r).waiters <==> w.target > r.parsed + 1)
  {
    forall w | w in r.waiters && w.target <= r.parsed + 1
      ensures Screen(ParseNext(r)) == Serialized(Flatten(r.fed[..w.target]))
    {
      assert w.target == r.parsed + 1;
    }
  }

  /** No promise is settled and kept waiting at once. */
  lemma ParseKeepsTheRestWaiting(r: ReplayState)
    requires ReplayOk(r) && CanParse(r) && TokensApart(r.waiters)
    ensures TokensApart(ParseNext(r).waiters)
    ensures forall w :: w in ParseNext(r).waiters ==> w in r.waiters && w.token !in TokensUpTo(r.waiters, r.parsed + 1)
  {
    AboveKeepsTokensApart(r.waiters, r.parsed + 1);
    var kept := Above(r.waiters, r.parsed + 1);
    forall w | w in kept ensures w.token !in TokensUpTo(r.waiters, r.parsed + 1) {
      assert w.token in Tokens(kept);
    }
  }

  /** A request waits, or is answered, for exactly what was fed before it. */
  lemma RequestBarrier(r: ReplayState, token: nat)
    requires ReplayOk(r) && !r.disposed
    ensures ReplayOk(AskSnapshot(r, token).0)
    ensures AskSnapshot(r, token).0.fed == r.fed
    ensures match AskSnapshot(r, token).1
            case Some(s) => s == Serialized(Flatten(r.fed)) && AskSnapshot(r, token).0 == r
            case None => AskSnapshot(r, token).0.waiters == r.waiters + [Waiter(|r.fed|, token)]
  {
    assert r.fed[..|r.fed|] == r.fed;
  }

  /** As many parse callbacks as there are unparsed chunks leave no request waiting. */
  function ParseAll(r: ReplayState): ReplayState
    requires ReplayOk(r) && !r.disposed
    decreases |r.fed| - r.parsed
  {
    if r.parsed == |r.fed| then r
    else
      ParseSettlesItsBarrier(r);
      ParseAll(ParseNext(r))
  }

  lemma {:induction false} NoRequestIsOrphaned(r: ReplayState)
    requires ReplayOk(r) && !r.disposed
    ensures forall w :: w !in ParseAll(r).waiters
    ensures Screen(ParseAll(r)) == Serialized(Flatten(r.fed))
    decreases |r.fed| - r.parsed
  {
    if r.parsed == |r.fed| {
      assert r.fed[..r.parsed] == r.fed;
    } else {
      ParseSettlesItsBarrier(r);
      NoRequestIsOrphaned(ParseNext(r));
    }
  }

  /** The replay terminal object. `written` is the terminal's input, `settled` its promises. */
  class PaneReplay {
    var issuedSeq: nat
    var parsedSeq: nat
    var waiters: seq<Waiter>
    var disposed: bool
    var written: seq<string>
    var settled: map<nat, Snapshot>

    ghost function State(): ReplayState
      reads this
    {
      ReplayState(written, parsedSeq, waiters, disposed)
    }

    ghost predicate Valid()
      reads this
    {
      && issuedSeq == |written|
      && ReplayOk(State())
      && Tokens(waiters) !! settled.Keys
      && TokensApart(waiters)
    }

    constructor ()
      ensures Valid() && State() == NewReplay && settled == map[]
    {
      issuedSeq, parsedSeq, waiters, disposed := 0, 0, [], false;
      written, settled := [], map[];
    }

    method Write(data: string)
      requires Valid()
      modifies this
      ensures Valid() && State() == Feed(old(State()), data) && settled == old(settled)
    {
      if disposed || |data| == 0 { return; }
      issuedSeq := issuedSeq + 1;
      written := written + [data];
    }

    /** The callback of chunk number `sequence`: the terminal has just parsed it. */
    method OnParsed(sequence: nat)
      requires Valid() && CanParse(State()) && sequence == parsedSeq + 1
      modifies this
      ensures Valid() && State() == ParseNext(old(State()))
      ensures settled == old(settled) +
        Answers(TokensUpTo(old(waiters), sequence), Screen(State()))
    {
      parsedSeq := sequence;
      ParseSettlesItsBarrier(old(State()));
      Drain();
    }

    method Drain()
      requires parsedSeq <= |written| && issuedSeq == |written|
      requires Tokens(waiters) !! settled.Keys
      requires TokensApart(waiters)
      modifies this
      ensures waiters == Above(old(waiters), parsedSeq)
      ensures settled == old(settled) + Answers(TokensUpTo(old(waiters), parsedSeq), Screen(State()))
      ensures issuedSeq == old(issuedSeq) && parsedSeq == old(parsedSeq)
      ensures disposed == old(disposed) && written == old(written)
      ensures Tokens(waiters) !! settled.Keys
      ensures TokensApart(waiters)
    {
      AboveKeepsTokensApart(waiters, parsedSeq);
      var ready := SelectUpTo(waiters, parsedSeq);
      waiters := Above(waiters, parsedSeq);
      var snapshot := Serialized(Flatten(written[..parsedSeq]));
      ResolveAll(ready, snapshot);
    }

    /** Settle the promise of every listed waiter with one and the same snapshot. */
    method ResolveAll(ready: seq<Waiter>, snapshot: Snapshot)
      modifies `settled
      ensures settled == old(settled) + Answers(Tokens(ready), snapshot)
    {
      var k := 0;
      while k < |ready|
        invariant 0 <= k <= |ready|
        invariant settled == old(settled) + Answers(Tokens(ready[..k]), snapshot)
      {
        settled := settled[ready[k].token := snapshot];
        TokensSnoc(ready[..k], ready[k]);
        assert ready[..k + 1] == ready[..k] + [ready[k]];
        k := k + 1;
      }
      assert ready[..k] == ready;
    }

    method TakeSnapshot(token: nat)
      requires Valid() && token !in settled && token !in Tokens(waiters)
      modifies this
      ensures Valid() && State() == AskSnapshot(old(State()), token).0
      ensures settled == match AskSnapshot(old(State()), token).1
                         case Some(s) => old(settled)[token := s]
                         case None => old(settled)
    {
      if disposed {
        settled := settled[token := Degraded];
        return;
      }
      var target := issuedSeq;
      if parsedSeq >= target {
        settled := settled[token := Serialized(Flatten(written[..parsedSeq]))];
        return;
      }
      assert forall w :: w in waiters ==> w.token in Tokens(waiters);
      waiters := waiters + [Waiter(target, token)];
    }

    method Close()
      requires Valid()
      modifies this
      ensures Valid() && State() == Dispose(old(State()))
      ensures settled == if old(disposed) then old(settled)
                         else old(settled) + Answers(Tokens(old(waiters)), Screen(old(State())))
    {
      if disposed { return; }
      disposed := true;
      var snapshot := Serialized(Flatten(written[..parsedSeq]));
      var pending := waiters;
      waiters := [];
      ResolveAll(pending, snapshot);
    }
  }

  function SelectUpTo(waiters: seq<Waiter>, n: nat): (ready: seq<Waiter>)
    ensures forall w :: w in ready <==> w in waiters && w.target <= n
    ensures Tokens(ready) == TokensUpTo(waiters, n)
  {
    if waiters == [] then []
    else if waiters[0].target <= n then [waiters[0]] + SelectUpTo(waiters[1..], n)
    else SelectUpTo(waiters[1..], n)
  }

  lemma {:induction false} AboveKeepsTokensApart(waiters: seq<Waiter>, n: nat)
    requires TokensApart(waiters)
    ensures TokensApart(Above(waiters, n))
    ensures Tokens(Above(waiters, n)) !! TokensUpTo(waiters, n)
  {
    if waiters != [] {
      var rest := waiters[1..];
      AboveKeepsTokensApart(rest, n);
      forall w | w in rest ensures w.token != waiters[0].token {
        var i :| 0 <= i < |rest| && rest[i] == w;
        assert w == waiters[i + 1];
      }
      forall w, v | w in waiters && v in waiters && w.token == v.token ensures w == v {
        var i :| 0 <= i < |waiters| && waiters[i] == w;
        var j :| 0 <= j < |waiters| && waiters[j] == v;
      }
    }
  }
}
