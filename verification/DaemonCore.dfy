/**
 * The daemon's connections over the idle lifecycle: a front observer counts handshakes, the session
 * behind it ends connections, and each backend handle reports its first exit.
 */
module DaemonCore {
  import opened Chunks
  import opened DaemonLifecycle

  /** One decoded item of the inbound stream. A hello is good when its protocol is compatible. */
  datatype Item = FatalItem | MessageError | HelloMessage(good: bool) | OtherMessage

  predicate IsMessage(i: Item) {
    i.HelloMessage? || i.OtherMessage?
  }

  /**
   * One connection: the front observer's flags (`settled`, `counted`) and its session's
   * (`established`, `ended`; the observer's own end flag is set together with the latter).
   * `stray` records that it was counted only after it had ended.
   */
  datatype Peer = Peer(settled: bool, counted: bool, established: bool, ended: bool, stray: bool)

  /** `gone[h]`: handle `h` has reported its exit. */
  datatype Core = Core(peers: seq<Peer>, holder: Option<nat>, gone: seq<bool>, life: Life)

  function Fresh(timeout: nat): Core {
    Core([], None, [], Created(timeout))
  }

  function Set(s: Core, c: nat, p: Peer): Core
    requires c < |s.peers|
  {
    s.(peers := s.peers[c := p])
  }

  function Notify(s: Core, e: DaemonLifecycle.Event): Core {
    s.(life := DaemonLifecycle.Step(s.life, e))
  }

  /** A session ends once; the count goes down if the connection had been counted. */
  function EndSession(s: Core, c: nat): (s': Core)
    requires c < |s.peers|
    ensures |s'.peers| == |s.peers|
  {
    var p := s.peers[c];
    if p.ended then s
    else
      var s1 := Set(s, c, p.(ended := true)).(holder := if s.holder == Some(c) then None else s.holder);
      if p.counted then Notify(s1, ConnectionEnded) else s1
  }

  /** A good hello takes the store; whoever held it is displaced and ends. */
  function TakeLease(s: Core, c: nat): (s': Core)
    requires c < |s.peers|
    ensures |s'.peers| == |s.peers|
  {
    var s1 := if s.holder.Some? && s.holder.value < |s.peers| then EndSession(s, s.holder.value) else s;
    Set(s1, c, s1.peers[c].(established := true)).(holder := Some(c))
  }

  function SessionItem(s: Core, c: nat, i: Item): (s': Core)
    requires c < |s.peers|
    ensures |s'.peers| == |s.peers|
  {
    var p := s.peers[c];
    if p.ended then s
    else if i.FatalItem? then EndSession(s, c)
    else if p.established then s
    else if i == HelloMessage(true) then TakeLease(s, c)
    else EndSession(s, c)
  }

  /** The loop body of `push`: the first message settles the handshake, wherever it stands. */
  function PushItem(s: Core, c: nat, i: Item): (s': Core)
    requires c < |s.peers|
    ensures |s'.peers| == |s.peers|
  {
    var p := s.peers[c];
    if !p.settled && IsMessage(i) then
      if i == HelloMessage(true) then
        var s1 := Set(s, c, p.(settled := true, counted := true, stray := p.ended));
        SessionItem(Notify(s1, ConnectionEstablished), c, i)
      else SessionItem(Set(s, c, p.(settled := true)), c, i)
    else SessionItem(s, c, i)
  }

  function PushItems(s: Core, c: nat, items: seq<Item>): (s': Core)
    requires c < |s.peers|
    ensures |s'.peers| == |s.peers|
    decreases |items|
  {
    if items == [] then s else PushItems(PushItem(s, c, items[0]), c, items[1..])
  }

  function Push(s: Core, c: nat, items: seq<Item>): (s': Core)
    requires c < |s.peers|
    ensures |s'.peers| == |s.peers|
  {
    if s.peers[c].ended then s else PushItems(s, c, items)
  }

  datatype Event =
    | AcceptPeer
    | PushTo(c: nat, items: seq<Item>)
    | EndOf(c: nat)
    | SpawnPane
    | ExitReport(h: nat)
    | Lifecycle(e: DaemonLifecycle.Event)

  function Next(s: Core, e: Event): Core {
    match e
    case AcceptPeer => s.(peers := s.peers + [Peer(false, false, false, false, false)])
    case PushTo(c, items) => if c < |s.peers| then Push(s, c, items) else s
    case EndOf(c) => if c < |s.peers| then EndSession(s, c) else s
    case SpawnPane => Notify(s.(gone := s.gone + [false]), PaneSpawned)
    case ExitReport(h) =>
      if h < |s.gone| && !s.gone[h] then Notify(s.(gone := s.gone[h := true]), PaneExited) else s
    case Lifecycle(e) => if e.Start? || e.SigTerm? || e.Elapse? || e.Due? then Notify(s, e) else s
  }

  function Run(s: Core, events: seq<Event>): Core
    decreases |events|
  {
    if events == [] then s else Run(Next(s, events[0]), events[1..])
  }

  // ---------------------------------------------------------------- counting

  function One(b: bool): nat {
    if b then 1 else 0
  }

  predicate LivePeer(p: Peer) {
    p.counted && !p.ended
  }

  function LivePeers(peers: seq<Peer>): nat {
    if peers == [] then 0 else LivePeers(peers[..|peers| - 1]) + One(LivePeer(peers[|peers| - 1]))
  }

  function Strays(peers: seq<Peer>): nat {
    if peers == [] then 0 else Strays(peers[..|peers| - 1]) + One(peers[|peers| - 1].stray)
  }

  function LivePanes(gone: seq<bool>): nat {
    if gone == [] then 0 else LivePanes(gone[..|gone| - 1]) + One(!gone[|gone| - 1])
  }

  lemma {:induction false} CountsAfterSet(peers: seq<Peer>, c: nat, p: Peer)
    requires c < |peers|
    ensures LivePeers(peers[c := p]) + One(LivePeer(peers[c])) == LivePeers(peers) + One(LivePeer(p))
    ensures Strays(peers[c := p]) + One(peers[c].stray) == Strays(peers) + One(p.stray)
    ensures LivePeers(peers) >= One(LivePeer(peers[c]))
  {
    var n := |peers| - 1;
    assert peers[c := p][..n] == if c < n then peers[..n][c := p] else peers[..n];
    if c < n { CountsAfterSet(peers[..n], c, p); }
  }

  lemma {:induction false} PanesAfterSet(gone: seq<bool>, h: nat)
    requires h < |gone| && !gone[h]
    ensures LivePanes(gone[h := true]) == LivePanes(gone) - 1
  {
    var n := |gone| - 1;
    assert gone[h := true][..n] == if h < n then gone[..n][h := true] else gone[..n];
    if h < n { PanesAfterSet(gone[..n], h); }
  }

  /** Where each connection stands; `open` is one whose handshake item is being handled. */
  ghost predicate PeerOk(s: Core, c: nat, open: int)
    requires c < |s.peers|
  {
    var p := s.peers[c];
    && (p.counted ==> p.settled)
    && (p.established ==> p.counted)
    && (p.stray ==> p.counted && p.ended)
    && (s.holder == Some(c) ==> p.established && !p.ended)
    && (p.established && !p.ended ==> s.holder == Some(c))
    && (c != open && p.settled && !p.established ==> p.ended)
  }

  ghost predicate CoreOk(s: Core, open: int) {
    && (forall c :: 0 <= c < |s.peers| ==> PeerOk(s, c, open))
    && (s.holder.Some? ==> s.holder.value < |s.peers|)
    && s.life.established == LivePeers(s.peers) + Strays(s.peers)
    && s.life.panes == LivePanes(s.gone)
  }

  lemma EndKeeps(s: Core, c: nat, open: int)
    requires CoreOk(s, open) && c < |s.peers|
    ensures CoreOk(EndSession(s, c), open) && Strays(EndSession(s, c).peers) == Strays(s.peers)
    ensures open == c ==> CoreOk(EndSession(s, c), -1)
    ensures EndSession(s, c).peers == s.peers[c := s.peers[c].(ended := true)]
    ensures EndSession(s, c).holder == (if s.holder == Some(c) then None else s.holder)
  {
    CountsAfterSet(s.peers, c, s.peers[c].(ended := true));
    assert PeerOk(s, c, open);
    var s' := EndSession(s, c);
    if s.peers[c].ended { assert s.peers == s.peers[c := s.peers[c].(ended := true)]; }
    forall d | 0 <= d < |s'.peers| ensures PeerOk(s', d, open) && (open == c ==> PeerOk(s', d, -1)) {
      assert PeerOk(s, d, open);
    }
  }

  lemma TakeLeaseKeeps(s: Core, c: nat)
    requires CoreOk(s, c) && c < |s.peers| && s.peers[c].counted && !s.peers[c].ended && !s.peers[c].established
    ensures CoreOk(TakeLease(s, c), -1) && Strays(TakeLease(s, c).peers) == Strays(s.peers)
  {
    assert PeerOk(s, c, c);
    if s.holder.Some? { EndKeeps(s, s.holder.value, c); }
    var s1 := if s.holder.Some? then EndSession(s, s.holder.value) else s;
    var s' := TakeLease(s, c);
    assert s1.peers[c] == s.peers[c];
    CountsAfterSet(s1.peers, c, s1.peers[c].(established := true));
    forall d | 0 <= d < |s'.peers| ensures PeerOk(s', d, -1) { assert PeerOk(s1, d, c); }
  }

  lemma SettleKeeps(s: Core, c: nat, good: bool)
    requires CoreOk(s, -1) && c < |s.peers| && !s.peers[c].settled
    ensures var p := s.peers[c];
      var counted := Set(s, c, p.(settled := true, counted := true, stray := p.ended));
      var s1 := if good then Notify(counted, ConnectionEstablished)
                else Set(s, c, p.(settled := true));
      CoreOk(s1, c) && (p.ended ==> CoreOk(s1, -1)) && Strays(s1.peers) == Strays(s.peers) + One(good && p.ended)
  {
    var p := s.peers[c];
    assert PeerOk(s, c, -1);
    var p' := if good then p.(settled := true, counted := true, stray := p.ended) else p.(settled := true);
    CountsAfterSet(s.peers, c, p');
    var s1 := if good then Notify(Set(s, c, p'), ConnectionEstablished) else Set(s, c, p');
    forall d | 0 <= d < |s1.peers| ensures PeerOk(s1, d, c) && (p.ended ==> PeerOk(s1, d, -1)) {
      assert PeerOk(s, d, -1);
    }
  }

  /** Does this item count a connection that has ended? */
  predicate StraysOn(p: Peer, i: Item) {
    !p.settled && i == HelloMessage(true) && p.ended
  }

  lemma PushItemKeeps(s: Core, c: nat, i: Item)
    requires CoreOk(s, -1) && c < |s.peers|
    ensures CoreOk(PushItem(s, c, i), -1)
    ensures Strays(PushItem(s, c, i).peers) == Strays(s.peers) + One(StraysOn(s.peers[c], i))
  {
    var p := s.peers[c];
    assert PeerOk(s, c, -1);
    if !p.settled && IsMessage(i) {
      var good := i == HelloMessage(true);
      SettleKeeps(s, c, good);
      var counted := Set(s, c, p.(settled := true, counted := true, stray := p.ended));
      var s1 := if good then Notify(counted, ConnectionEstablished)
                else Set(s, c, p.(settled := true));
      if !p.ended {
        if good { TakeLeaseKeeps(s1, c); } else { EndKeeps(s1, c, c); }
      }
    } else if !p.ended {
      EndKeeps(s, c, -1);
    }
  }

  function FirstMessage(items: seq<Item>): (n: nat)
    ensures n <= |items|
  {
    if items == [] || IsMessage(items[0]) then 0 else 1 + FirstMessage(items[1..])
  }

  /** In a list of items, a good hello that comes after the connection has ended. */
  predicate StraysIn(p: Peer, items: seq<Item>) {
    var n := FirstMessage(items);
    !p.settled && n < |items| && items[n] == HelloMessage(true) && (p.ended || n > 0)
  }

  /** Before its handshake settles, any item that is not a message ends the connection. */
  lemma PushItemOnPeer(s: Core, c: nat, i: Item)
    requires CoreOk(s, -1) && c < |s.peers|
    ensures var p, p' := s.peers[c], PushItem(s, c, i).peers[c];
      && (p.settled || IsMessage(i) ==> p'.settled)
      && (!p.settled && !IsMessage(i) ==> !p'.settled && p'.ended)
  {
    assert PeerOk(s, c, -1);
  }

  lemma {:induction false} PushItemsKeep(s: Core, c: nat, items: seq<Item>)
    requires CoreOk(s, -1) && c < |s.peers|
    ensures CoreOk(PushItems(s, c, items), -1)
    ensures Strays(PushItems(s, c, items).peers) == Strays(s.peers) + One(StraysIn(s.peers[c], items))
    decreases |items|
  {
    if items != [] {
      PushItemKeeps(s, c, items[0]);
      PushItemOnPeer(s, c, items[0]);
      PushItemsKeep(PushItem(s, c, items[0]), c, items[1..]);
    }
  }

  /** A push in which a good hello follows an item that already ended the connection. */
  predicate Leaky(s: Core, e: Event) {
    e.PushTo? && e.c < |s.peers| && !s.peers[e.c].ended && !s.peers[e.c].settled
    && 0 < FirstMessage(e.items) < |e.items| && e.items[FirstMessage(e.items)] == HelloMessage(true)
  }

  lemma StepKeeps(s: Core, e: Event)
    requires CoreOk(s, -1)
    ensures CoreOk(Next(s, e), -1)
    ensures Strays(Next(s, e).peers) == Strays(s.peers) + One(Leaky(s, e))
  {
    match e
    case PushTo(c, items) => if c < |s.peers| && !s.peers[c].ended { PushItemsKeep(s, c, items); }
    case EndOf(c) => if c < |s.peers| { EndKeeps(s, c, -1); }
    case AcceptPeer => AcceptKeeps(s);
    case SpawnPane => SpawnKeeps(s);
    case ExitReport(h) => ExitReportKeeps(s, h);
    case Lifecycle(_) => OthersStand(s, Next(s, e));
  }

  lemma AcceptKeeps(s: Core)
    requires CoreOk(s, -1)
    ensures CoreOk(Next(s, AcceptPeer), -1) && Strays(Next(s, AcceptPeer).peers) == Strays(s.peers)
  {
    var s' := Next(s, AcceptPeer);
    assert s'.peers[..|s.peers|] == s.peers;
    forall d | 0 <= d < |s'.peers| ensures PeerOk(s', d, -1) { if d < |s.peers| { assert PeerOk(s, d, -1); } }
  }

  lemma SpawnKeeps(s: Core)
    requires CoreOk(s, -1)
    ensures CoreOk(Next(s, SpawnPane), -1) && Next(s, SpawnPane).peers == s.peers
  {
    assert (s.gone + [false])[..|s.gone|] == s.gone;
    OthersStand(s, Next(s, SpawnPane));
  }

  lemma ExitReportKeeps(s: Core, h: nat)
    requires CoreOk(s, -1)
    ensures CoreOk(Next(s, ExitReport(h)), -1) && Next(s, ExitReport(h)).peers == s.peers
  {
    if h < |s.gone| && !s.gone[h] { PanesAfterSet(s.gone, h); }
    OthersStand(s, Next(s, ExitReport(h)));
  }

  lemma OthersStand(s: Core, s': Core)
    requires CoreOk(s, -1) && s'.peers == s.peers && s'.holder == s.holder
    ensures forall d :: 0 <= d < |s'.peers| ==> PeerOk(s', d, -1)
  {
    forall d | 0 <= d < |s'.peers| ensures PeerOk(s', d, -1) { assert PeerOk(s, d, -1); }
  }

  lemma {:induction false} RunKeeps(s: Core, events: seq<Event>)
    requires CoreOk(s, -1)
    ensures CoreOk(Run(s, events), -1) && Strays(Run(s, events).peers) >= Strays(s.peers)
    decreases |events|
  {
    if events != [] {
      StepKeeps(s, events[0]);
      RunKeeps(Next(s, events[0]), events[1..]);
    }
  }

  /**
   * The counts are those of the live established connections and the live panes after an event
   * exactly when they were before and the event is not a leaky push.
   */
  lemma CountStaysExactIff(timeout: nat, events: seq<Event>, e: Event)
    ensures var s := Run(Fresh(timeout), events); var s' := Next(s, e);
      (s'.life.established == LivePeers(s'.peers)) <==> (s.life.established == LivePeers(s.peers) && !Leaky(s, e))
    ensures var s' := Next(Run(Fresh(timeout), events), e); s'.life.panes == LivePanes(s'.gone)
  {
    RunKeeps(Fresh(timeout), events);
    StepKeeps(Run(Fresh(timeout), events), e);
  }

  /** The smallest leaky push: a broken message and a good hello delivered together. */
  lemma LeakyPushLeaks(timeout: nat)
    ensures var s := Run(Fresh(timeout), [AcceptPeer, PushTo(0, [MessageError, HelloMessage(true)])]);
      s.peers == [Peer(true, true, false, true, true)] && s.life.established == 1 && LivePeers(s.peers) == 0
  {
    var s1 := Next(Fresh(timeout), AcceptPeer);
    assert s1.peers == [Peer(false, false, false, false, false)];
    var s2 := PushItem(s1, 0, MessageError);
    assert s2.peers == [Peer(false, false, false, true, false)];
    var s3 := PushItem(s2, 0, HelloMessage(true));
    assert s3.peers == [Peer(true, true, false, true, true)];
    assert [MessageError, HelloMessage(true)][1..] == [HelloMessage(true)];
    assert PushItems(s2, 0, [HelloMessage(true)]) == s3;
    assert PushItems(s1, 0, [MessageError, HelloMessage(true)]) == s3;
    var events := [AcceptPeer, PushTo(0, [MessageError, HelloMessage(true)])];
    assert events[1..] == [events[1]];
    assert Run(s1, [events[1]]) == s3;
  }

  // ---------------------------------------------------------------- who is connected

  /** A connected peer stays until a fatal item; whatever else it sends changes nothing here. */
  lemma {:induction false} ConnectedOutcome(s: Core, c: nat, items: seq<Item>)
    requires CoreOk(s, -1) && c < |s.peers| && s.peers[c].established
    ensures PushItems(s, c, items).peers ==
      s.peers[c := s.peers[c].(ended := s.peers[c].ended || FatalItem in items)]
    decreases |items|
  {
    var p := s.peers[c];
    assert PeerOk(s, c, -1);
    if items == [] {
      assert s.peers[c := p] == s.peers;
    } else {
      var s1 := PushItem(s, c, items[0]);
      PushItemKeeps(s, c, items[0]);
      EndKeeps(s, c, -1);
      assert s.peers[c := p] == s.peers;
      assert s1.peers == s.peers[c := p.(ended := p.ended || items[0].FatalItem?)];
      ConnectedOutcome(s1, c, items[1..]);
      assert FatalItem in items <==> items[0] == FatalItem || FatalItem in items[1..];
    }
  }

  /** Who holds the store ends when somebody else's good hello is taken; nobody else is touched. */
  function Displacing(s: Core, c: nat): seq<Peer>
    requires c < |s.peers|
  {
    var joined := s.peers[c := s.peers[c].(settled := true, counted := true, established := true)];
    if s.holder.Some? && s.holder.value < |s.peers| && s.holder.value != c then
      joined[s.holder.value := s.peers[s.holder.value].(ended := true)]
    else joined
  }

  lemma GoodHelloOutcome(s: Core, c: nat)
    requires CoreOk(s, -1) && c < |s.peers| && !s.peers[c].ended && !s.peers[c].settled
    ensures var s' := PushItem(s, c, HelloMessage(true));
      s'.peers == Displacing(s, c) && s'.holder == Some(c)
  {
    assert PeerOk(s, c, -1);
    SettleKeeps(s, c, true);
    var p := s.peers[c];
    var s1 := Notify(Set(s, c, p.(settled := true, counted := true, stray := p.ended)), ConnectionEstablished);
    if s.holder.Some? { EndKeeps(s1, s.holder.value, c); }
  }

  /**
   * What a push makes of a connection that has not settled yet: a good hello as its first item connects
   * it, displaces the holder, and leaves it connected unless a fatal item follows; anything else as
   * first item ends it without connecting it, unless the push leaks.
   */
  lemma FirstPushOutcome(s: Core, c: nat, items: seq<Item>)
    requires CoreOk(s, -1) && c < |s.peers| && !s.peers[c].ended && !s.peers[c].settled && items != []
    requires !Leaky(s, PushTo(c, items))
    ensures items[0] == HelloMessage(true) ==>
      Next(s, PushTo(c, items)).peers == Displacing(s, c)[c := Displacing(s, c)[c].(ended := FatalItem in items[1..])]
    ensures items[0] != HelloMessage(true) ==>
      var peers := Next(s, PushTo(c, items)).peers;
      && |peers| == |s.peers| && peers[c].ended && !peers[c].counted && !peers[c].established
      && forall d :: 0 <= d < |peers| && d != c ==> peers[d] == s.peers[d]
  {
    assert PeerOk(s, c, -1);
    if items[0] == HelloMessage(true) {
      GoodHelloOutcome(s, c);
      PushItemKeeps(s, c, items[0]);
      ConnectedOutcome(PushItem(s, c, items[0]), c, items[1..]);
    } else {
      UnsettledOutcome(s, c, items);
    }
  }

  /** Items without a good hello as the first message: the connection ends at the first of them. */
  lemma {:induction false} UnsettledOutcome(s: Core, c: nat, items: seq<Item>)
    requires CoreOk(s, -1) && c < |s.peers| && !s.peers[c].counted && items != []
    requires s.peers[c].settled || FirstMessage(items) == |items| || items[FirstMessage(items)] != HelloMessage(true)
    requires s.peers[c].settled ==> s.peers[c].ended
    ensures var peers := PushItems(s, c, items).peers;
      && |peers| == |s.peers| && peers[c].ended && !peers[c].counted && !peers[c].established
      && forall d :: 0 <= d < |peers| && d != c ==> peers[d] == s.peers[d]
    decreases |items|
  {
    var s1 := PushItem(s, c, items[0]);
    assert PeerOk(s, c, -1);
    PushItemKeeps(s, c, items[0]);
    EndKeeps(s, c, -1);
    if !s.peers[c].settled && IsMessage(items[0]) {
      SettleKeeps(s, c, false);
      EndKeeps(Set(s, c, s.peers[c].(settled := true)), c, c);
    }
    assert s1.peers[c].ended && !s1.peers[c].counted;
    if |items| > 1 { UnsettledOutcome(s1, c, items[1..]); } else { assert PushItems(s1, c, items[1..]) == s1; }
  }

  // ---------------------------------------------------------------- what it means for the daemon

  lemma {:induction false} LifeKeeps(s: Core, events: seq<Event>)
    requires LifeOk(s.life)
    ensures LifeOk(Run(s, events).life)
    decreases |events|
  {
    if events != [] {
      LifeStep(s, events[0]);
      LifeKeeps(Next(s, events[0]), events[1..]);
    }
  }

  lemma EndLife(s: Core, c: nat)
    requires LifeOk(s.life) && c < |s.peers|
    ensures LifeOk(EndSession(s, c).life)
  {
    DaemonLifecycle.StepKeeps(s.life, ConnectionEnded);
  }

  lemma {:induction false} PushLife(s: Core, c: nat, items: seq<Item>)
    requires LifeOk(s.life) && c < |s.peers|
    ensures LifeOk(PushItems(s, c, items).life)
    decreases |items|
  {
    if items != [] {
      PushItemLife(s, c, items[0]);
      PushLife(PushItem(s, c, items[0]), c, items[1..]);
    }
  }

  lemma PushItemLife(s: Core, c: nat, i: Item)
    requires LifeOk(s.life) && c < |s.peers|
    ensures LifeOk(PushItem(s, c, i).life)
  {
    var p := s.peers[c];
    DaemonLifecycle.StepKeeps(s.life, ConnectionEstablished);
    var s1 := if !p.settled && IsMessage(i) then
                if i == HelloMessage(true) then
                  Notify(Set(s, c, p.(settled := true, counted := true, stray := p.ended)), ConnectionEstablished)
                else Set(s, c, p.(settled := true))
              else s;
    EndLife(s1, c);
    if s1.holder.Some? && s1.holder.value < |s1.peers| { EndLife(s1, s1.holder.value); }
  }

  lemma LifeStep(s: Core, e: Event)
    requires LifeOk(s.life)
    ensures LifeOk(Next(s, e).life)
  {
    match e
    case PushTo(c, items) => if c < |s.peers| { PushLife(s, c, items); }
    case EndOf(c) => if c < |s.peers| { EndLife(s, c); }
    case SpawnPane => DaemonLifecycle.StepKeeps(s.life, PaneSpawned);
    case ExitReport(h) => DaemonLifecycle.StepKeeps(s.life, PaneExited);
    case Lifecycle(e) => DaemonLifecycle.StepKeeps(s.life, e);
    case AcceptPeer =>
  }

  /** No push of the run leaks. */
  predicate Clean(s: Core, events: seq<Event>)
    decreases |events|
  {
    events == [] || (!Leaky(s, events[0]) && Clean(Next(s, events[0]), events[1..]))
  }

  lemma {:induction false} CleanRunsCountExactly(s: Core, events: seq<Event>)
    requires CoreOk(s, -1) && Clean(s, events)
    ensures Strays(Run(s, events).peers) == Strays(s.peers)
    decreases |events|
  {
    if events != [] {
      StepKeeps(s, events[0]);
      CleanRunsCountExactly(Next(s, events[0]), events[1..]);
    }
  }

  /** A clean daemon, once started, has its idle timer armed exactly when nobody is connected and no pane lives. */
  lemma CleanDaemonIdlesRight(timeout: nat, events: seq<Event>)
    requires Clean(Fresh(timeout), events)
    ensures var s := Run(Fresh(timeout), events);
      && s.life.established == LivePeers(s.peers) && s.life.panes == LivePanes(s.gone)
      && (s.life.started && !s.life.shutdown ==>
            (s.life.timer.Some? <==> LivePeers(s.peers) == 0 && LivePanes(s.gone) == 0))
  {
    RunKeeps(Fresh(timeout), events);
    CleanRunsCountExactly(Fresh(timeout), events);
    LifeKeeps(Fresh(timeout), events);
  }

  /** A daemon that leaked once never arms its idle timer again, whoever comes and goes. */
  lemma LeakedDaemonNeverIdles(timeout: nat, before: seq<Event>, e: Event, after: seq<Event>)
    requires Leaky(Run(Fresh(timeout), before), e)
    ensures var s := Run(Next(Run(Fresh(timeout), before), e), after);
      s.life.established > LivePeers(s.peers) && s.life.timer.None?
  {
    var s0 := Run(Fresh(timeout), before);
    RunKeeps(Fresh(timeout), before);
    StepKeeps(s0, e);
    RunKeeps(Next(s0, e), after);
    LifeKeeps(Fresh(timeout), before);
    LifeStep(s0, e);
    LifeKeeps(Next(s0, e), after);
  }

  // ---------------------------------------------------------------- the object

  /** The survival composition: connection flags, hooks into the lifecycle, and the handles' exit guards. */
  class Daemon {
    var peers: seq<Peer>
    var holder: Option<nat>
    var gone: seq<bool>
    const life: Lifecycle

    ghost function State(): Core
      reads this, life
    {
      Core(peers, holder, gone, life.State())
    }

    constructor (life: Lifecycle)
      ensures this.life == life && peers == [] && holder == None && gone == []
    {
      this.life, peers, holder, gone := life, [], None, [];
    }

    method Accept() returns (c: nat)
      modifies `peers
      ensures c == |old(peers)| && State() == Next(old(State()), AcceptPeer)
    {
      c := |peers|;
      peers := peers + [Peer(false, false, false, false, false)];
    }

    /** The session's shutdown callback, reached once on every end path. */
    method End(c: nat)
      requires c < |peers|
      modifies this, life
      ensures State() == EndSession(old(State()), c) && |peers| == |old(peers)|
    {
      if peers[c].ended { return; }
      var counted := peers[c].counted;
      peers := peers[c := peers[c].(ended := true)];
      if holder == Some(c) { holder := None; }
      if counted { life.OnConnectionEnded(); }
    }

    method Bind(c: nat)
      requires c < |peers|
      modifies this, life
      ensures State() == TakeLease(old(State()), c) && |peers| == |old(peers)|
    {
      if holder.Some? && holder.value < |peers| { End(holder.value); }
      peers := peers[c := peers[c].(established := true)];
      holder := Some(c);
    }

    method OnItem(c: nat, i: Item)
      requires c < |peers|
      modifies this, life
      ensures State() == SessionItem(old(State()), c, i) && |peers| == |old(peers)|
    {
      if peers[c].ended { return; }
      if i.FatalItem? {
        End(c);
      } else if !peers[c].established {
        if i == HelloMessage(true) { Bind(c); } else { End(c); }
      }
    }

    /** Feed decoded items; the loop does not look whether the session has ended meanwhile. */
    method OnPush(c: nat, items: seq<Item>)
      requires c < |peers|
      modifies this, life
      ensures State() == Push(old(State()), c, items) && |peers| == |old(peers)|
    {
      if peers[c].ended { return; }
      var k := 0;
      while k < |items|
        invariant 0 <= k <= |items| && |peers| == |old(peers)|
        invariant PushItems(State(), c, items[k..]) == PushItems(old(State()), c, items)
      {
        var i := items[k];
        if !peers[c].settled && IsMessage(i) {
          var p := peers[c];
          if i == HelloMessage(true) {
            peers := peers[c := p.(settled := true, counted := true, stray := p.ended)];
            life.OnConnectionEstablished();
          } else {
            peers := peers[c := p.(settled := true)];
          }
        }
        OnItem(c, i);
        k := k + 1;
      }
    }

    method OnSpawn()
      modifies `gone, life
      ensures State() == Next(old(State()), SpawnPane)
    {
      gone := gone + [false];
      life.OnPaneSpawned();
    }

    /** The wrapped handle's exit callback: the hook runs for the first report only. */
    method OnExitReport(h: nat)
      requires h < |gone|
      modifies `gone, life
      ensures State() == Next(old(State()), ExitReport(h))
    {
      if !gone[h] {
        gone := gone[h := true];
        life.OnPaneExited();
      }
    }
  }
}
