/** A run with two overlapping starts in which a connection map errs. */
module Overlapping {
  import opened Vocabulary
  import opened Channels
  import opened Broadcast
  import opened Server
  import opened System
  import opened Chains
  import opened Runs
  import Client

  const BOTH_ADVERTISED: State :=
    State(Hub(2, map[0 := {}, 1 := {}], [Add(0), Add(1)], map[]), map[], map[0 := NewNode(0), 1 := NewNode(1)], map[])

  lemma TwoAdvertise() returns (s: State)
    ensures Steps(INITIAL, Advertise, s) && Steps(s, Advertise, BOTH_ADVERTISED)
  {
    s := DoAdvertise(INITIAL);
  }

  function Starting(c: Id, phase: Phase): Node {
    NewNode(c).(phase := phase)
  }

  /** The stream of a client whose initial list is the other one. */
  function StreamOf(other: Id): PeerStream {
    PeerStream([other], 2, 2, [Changes([Add(other)])], false)
  }

  const BOTH_LISTED: State :=
    State(Hub(2, map[0 := {}, 1 := {}], [Add(0), Add(1)], map[]), map[0 := StreamOf(1), 1 := StreamOf(0)],
      map[0 := Starting(0, PeerOpen), 1 := Starting(1, PeerOpen)], map[])

  lemma TwoList() returns (s: State)
    ensures Steps(BOTH_ADVERTISED, OpenPeer(0, [1]), s) && Steps(s, OpenPeer(1, [0]), BOTH_LISTED)
  {
    s := DoOpenPeer(BOTH_ADVERTISED, 0, [1]);
    assert Discover(BOTH_ADVERTISED.hub, 0) == {1} && Discover(BOTH_ADVERTISED.hub, 1) == {0};
    assert Adds([1]) == [Add(1)] && Adds([0]) == [Add(0)];
  }

  const SIDES: set<Side> := {OfferSide, AnswerSide}

  const ALL_CHANS: map<Key, Chan> :=
    map[Key(OfferSide, 0) := NewChan(), Key(AnswerSide, 0) := NewChan(), Key(OfferSide, 1) := NewChan(), Key(AnswerSide, 1) := NewChan()]

  const BOTH_RUN: State :=
    State(Hub(2, map[0 := SIDES, 1 := SIDES], [Add(0), Add(1)], ALL_CHANS), map[0 := StreamOf(1), 1 := StreamOf(0)],
      map[0 := Starting(0, Running).(core := Client.NewCore(0)), 1 := Starting(1, Running).(core := Client.NewCore(1))], map[])

  lemma TwoOpen() returns (s1: State, s2: State, s3: State)
    ensures Steps(BOTH_LISTED, Open(0, OfferSide), s1) && Steps(s1, Open(0, AnswerSide), s2)
    ensures Steps(s2, Open(1, OfferSide), s3) && Steps(s3, Open(1, AnswerSide), BOTH_RUN)
  {
    s1 := DoOpen(BOTH_LISTED, 0, OfferSide);
    s2 := DoOpen(s1, 0, AnswerSide);
    s3 := DoOpen(s2, 1, OfferSide);
    assert {} + {OfferSide} + {AnswerSide} == SIDES;
  }

  /** A client that has read its first message: it is to create an offer for the other one. */
  function Discovered(c: Id, other: Id): Node {
    Starting(c, Running).(core := Client.Core(c, {other}, false,
      map[1 := Client.Listener(OfferSide), 2 := Client.Listener(AnswerSide), 3 := Client.PeerListener, 4 := Client.CreateOffer(other)], 5))
  }

  lemma OneDiscovers(c: Id, other: Id)
    requires c != other
    ensures OnPeerEvent(Starting(c, Running).(core := Client.NewCore(c)), BOTH_RUN.hub, 0, Changes([Add(other)])) == Discovered(c, other)
  {
    var node := Starting(c, Running).(core := Client.NewCore(c));
    Client.FreshAdditionsSettle({}, [other]);
    AddedIdsOfAdds([other]);
    assert Adds([other]) == [Add(other)] && {} + Elements([other]) == {other};
    var heard := Heard(node, 0, [Add(other)]).core.(discovered := {other}, first := false);
    assert Client.QueueOffers(heard, [other]) == Client.Queue(heard, Client.CreateOffer(other)) by {
      assert [other][1..] == [];
    }
    assert Client.Queue(heard, Client.CreateOffer(other)).tasks == Discovered(c, other).core.tasks;
  }

  function AfterDiscovery(s: State, c: Id, other: Id): State {
    State(s.hub, s.streams[c := StreamOf(other).(wire := [])], s.nodes[c := Discovered(c, other)], s.chains[Pair(c, other) := Creating(4)])
  }

  lemma OneStarts(chains: map<Pair, Chain>, before: Client.Core, c: Id, other: Id)
    requires before.first && before.id == c && before.next == 4
    ensures Started(chains, before, Discovered(c, other).core, [Add(other)]) == chains[Pair(c, other) := Creating(4)]
  {
    AddedIdsOfAdds([other]);
    assert Adds([other]) == [Add(other)] && [other][1..] == [];
  }

  lemma Discovers(s: State, c: Id, other: Id)
    requires s.hub == BOTH_RUN.hub && c != other && c in s.nodes && c in s.streams
    requires s.nodes[c] == Starting(c, Running).(core := Client.NewCore(c)) && s.streams[c] == StreamOf(other)
    ensures Steps(s, StepPeer(c, 0), AfterDiscovery(s, c, other))
  {
    hide BOTH_RUN, OnPeerEvent, Started;
    OneDiscovers(c, other);
    OneStarts(s.chains, Heard(s.nodes[c], 0, [Add(other)]).core, c, other);
    assert [Changes([Add(other)])][1..] == [];
    assert DoStepPeer(s, c, 0) == AfterDiscovery(s, c, other);
  }

  /** A client that has made and signalled its offer. */
  function Offered(c: Id, other: Id, offer: Payload): Node {
    Discovered(c, other).(conns := map[other := Some(LocalConn(other))], made := map[other := offer],
      core := Client.Done(Discovered(c, other).core, 4))
  }

  /** A channel that has accepted one signal. */
  function OneSignal(x: Signal): Chan {
    Chan([None, Some(x)], 0, 0, true)
  }

  function AfterOffer(s: State, c: Id, other: Id, offer: Payload): State {
    State(s.hub.(chans := s.hub.chans[Key(OfferSide, other) := OneSignal(Signal(c, offer))]), s.streams,
      s.nodes[c := Offered(c, other, offer)], s.chains[Pair(c, other) := OfferSent(1)])
  }

  lemma MakesOffer(s: State, c: Id, other: Id, offer: Payload)
    requires c in s.nodes && s.nodes[c] == Discovered(c, other)
    requires other in s.hub.peers && OfferSide in s.hub.peers[other]
    requires Key(OfferSide, other) in s.hub.chans && s.hub.chans[Key(OfferSide, other)] == NewChan()
    ensures Steps(s, StepCreateOffer(c, 4, offer), AfterOffer(s, c, other, offer))
  {
    assert [None] + [Some(Signal(c, offer))] == [None, Some(Signal(c, offer))];
    assert Send(s.hub, OfferSide, other, Signal(c, offer)) == (AfterOffer(s, c, other, offer).hub, Ok(()));
    hide Send;
    assert DoStepCreateOffer(s, c, 4, offer).nodes[c] == Offered(c, other, offer);
    assert DoStepCreateOffer(s, c, 4, offer) == AfterOffer(s, c, other, offer);
  }

  /** Client `c` has made an offer for `r`, and an offer from `r` is on its way to it. */
  ghost predicate Crossed(s: State, c: Id, r: Id, n: nat, offer: Payload) {
    && Active(s, c) && r in s.nodes[c].conns && HasTask(s, c, n, Client.Listener(OfferSide))
    && Key(OfferSide, c) in s.hub.chans && s.hub.chans[Key(OfferSide, c)] == OneSignal(Signal(r, offer))
  }

  lemma Forwarded(s: State, c: Id, r: Id, n: nat, offer: Payload) returns (s1: State, s2: State)
    requires Crossed(s, c, r, n, offer)
    ensures Steps(s, Forward(Key(OfferSide, c)), s1) && Steps(s1, Forward(Key(OfferSide, c)), s2)
    ensures s2.nodes == s.nodes
    ensures Key(OfferSide, c) in s2.hub.chans && s2.hub.chans[Key(OfferSide, c)] == OneSignal(Signal(r, offer)).(fwd := 2)
  {
    s1 := DoForward(s, Key(OfferSide, c));
    s2 := DoForward(s1, Key(OfferSide, c));
  }

  /** The client reads the offer, and its callback finds that its map already knows the peer. */
  lemma OfferErrs(s: State, c: Id, r: Id, n: nat, offer: Payload, answer: Payload) returns (m: nat, s1: State, s2: State)
    requires Active(s, c) && r in s.nodes[c].conns && HasTask(s, c, n, Client.Listener(OfferSide))
    requires Key(OfferSide, c) in s.hub.chans && s.hub.chans[Key(OfferSide, c)] == OneSignal(Signal(r, offer)).(fwd := 2)
    ensures Steps(s, StepListener(c, n), s1) && Steps(s1, StepReceiveOffer(c, m, answer), s2)
    ensures c in s2.nodes && s2.nodes[c].mapErr && s2.nodes[c].phase == Stopped
  {
    var ch := s.hub.chans[Key(OfferSide, c)];
    assert NextSignal(ch.log, ch.read, ch.fwd) == 1;
    s1 := DoStepListener(s, c, n);
    m := s.nodes[c].core.next + 1;
    assert Has(s1, c, m) && TaskOf(s1, c, m) == Client.ReceiveOffer(r, offer, 1);
    s2 := DoStepReceiveOffer(s1, c, m, answer);
  }

  lemma TwoDiscover() returns (s1: State, s2: State)
    ensures Steps(BOTH_RUN, StepPeer(0, 0), s1) && Steps(s1, StepPeer(1, 0), s2)
    ensures BothDiscovered(s2)
  {
    s1 := AfterDiscovery(BOTH_RUN, 0, 1);
    Discovers(BOTH_RUN, 0, 1);
    s2 := AfterDiscovery(s1, 1, 0);
    Discovers(s1, 1, 0);
    hide Steps;
  }

  /** Both are to create an offer for the other one, and nothing has been signalled. */
  ghost predicate BothDiscovered(s: State) {
    && s.hub == BOTH_RUN.hub && 0 in s.nodes && s.nodes[0] == Discovered(0, 1) && 1 in s.nodes && s.nodes[1] == Discovered(1, 0)
  }

  lemma TwoOffer(s: State) returns (s1: State, s2: State)
    requires BothDiscovered(s)
    ensures Steps(s, StepCreateOffer(0, 4, "a"), s1) && Steps(s1, StepCreateOffer(1, 4, "b"), s2)
    ensures Crossed(s2, 1, 0, 1, "a")
  {
    s1 := AfterOffer(s, 0, 1, "a");
    MakesOffer(s, 0, 1, "a");
    s2 := AfterOffer(s1, 1, 0, "b");
    MakesOffer(s1, 1, 0, "b");
    hide Steps;
  }

  predicate Leaves(e: Event) {
    e.Stop? || e.Teardown? || e.Drop?
  }

  lemma Next(ss: seq<State>, es: seq<Event>, s: State, e: Event, s': State) returns (ss': seq<State>, es': seq<Event>)
    requires RunTo(ss, es, s) && Steps(s, e, s') && !Leaves(e) && forall x :: x in es ==> !Leaves(x)
    ensures RunTo(ss', es', s') && forall x :: x in es' ==> !Leaves(x)
  {
    Extend(ss, es, s, e, s');
    ss', es' := ss + [s'], es + [e];
    hide RunTo, Steps;
  }

  lemma BothStart() returns (ss: seq<State>, es: seq<Event>)
    ensures RunTo(ss, es, BOTH_RUN) && forall e :: e in es ==> !Leaves(e)
  {
    hide Steps, RunTo, IsRun, BOTH_ADVERTISED, BOTH_LISTED, BOTH_RUN;
    var a := TwoAdvertise();
    var b := TwoList();
    var c1, c2, c3 := TwoOpen();
    EmptyRun();
    ss, es := Next([INITIAL], [], INITIAL, Advertise, a);
    ss, es := Next(ss, es, a, Advertise, BOTH_ADVERTISED);
    ss, es := Next(ss, es, BOTH_ADVERTISED, OpenPeer(0, [1]), b);
    ss, es := Next(ss, es, b, OpenPeer(1, [0]), BOTH_LISTED);
    ss, es := Next(ss, es, BOTH_LISTED, Open(0, OfferSide), c1);
    ss, es := Next(ss, es, c1, Open(0, AnswerSide), c2);
    ss, es := Next(ss, es, c2, Open(1, OfferSide), c3);
    ss, es := Next(ss, es, c3, Open(1, AnswerSide), BOTH_RUN);
  }

  lemma EmptyRun()
    ensures RunTo([INITIAL], [], INITIAL)
  {
  }

  /** Overlapping starts can make a connection map err, without anybody leaving: two peers advertise
      before either opens its peer listener, and so each makes an offer to the other; the one that
      reads the other's offer after making its own finds the entry taken. */
  lemma OverlappingStartsErr() returns (ss: seq<State>, es: seq<Event>)
    ensures IsRun(ss, es) && (forall e :: e in es ==> !Leaves(e))
    ensures 1 in ss[|es|].nodes && ss[|es|].nodes[1].mapErr && ss[|es|].nodes[1].phase == Stopped
  {
    hide Steps, Crossed, BothDiscovered, BOTH_RUN;
    ss, es := BothStart();
    var s1, s2 := TwoDiscover();
    var s3, s4 := TwoOffer(s2);
    ss, es := Next(ss, es, BOTH_RUN, StepPeer(0, 0), s1);
    ss, es := Next(ss, es, s1, StepPeer(1, 0), s2);
    ss, es := Next(ss, es, s2, StepCreateOffer(0, 4, "a"), s3);
    ss, es := Next(ss, es, s3, StepCreateOffer(1, 4, "b"), s4);
    ss, es := OffersCross(ss, es, s4, 1, 0, 1, "a");
  }

  lemma OffersCross(ss: seq<State>, es: seq<Event>, s: State, c: Id, r: Id, n: nat, offer: Payload) returns (ss': seq<State>, es': seq<Event>)
    requires RunTo(ss, es, s) && Crossed(s, c, r, n, offer) && forall e :: e in es ==> !Leaves(e)
    ensures IsRun(ss', es') && (forall e :: e in es' ==> !Leaves(e))
    ensures c in ss'[|es'|].nodes && ss'[|es'|].nodes[c].mapErr && ss'[|es'|].nodes[c].phase == Stopped
  {
    hide Steps;
    var f1, f2 := Forwarded(s, c, r, n, offer);
    var m, s1, s2 := OfferErrs(f2, c, r, n, offer, "");
    ss', es' := Next(ss, es, s, Forward(Key(OfferSide, c)), f1);
    ss', es' := Next(ss', es', f1, Forward(Key(OfferSide, c)), f2);
    ss', es' := Next(ss', es', f2, StepListener(c, n), s1);
    ss', es' := Next(ss', es', s1, StepReceiveOffer(c, m, ""), s2);
  }
}
