/** Calm runs with serialised starts: nobody leaves, and every chain that is called for starts and
    is never refused. */
module CalmRuns {
  import opened Vocabulary
  import opened Channels
  import opened Broadcast
  import opened Server
  import opened System
  import opened Registry
  import opened Discovery
  import opened Chains
  import opened Causality
  import opened Connections
  import opened Crossing
  import opened Stopping
  import opened Liveness
  import Convergence
  import Client
  import ConnectionMap

  ghost predicate NoneStopped(s: State) {
    forall c :: c in s.nodes ==> s.nodes[c].phase != Stopped
  }

  /** Nothing goes wrong at this event: nobody leaves, no stream is dropped, no callback or request
      fails, no listener has lagged behind the ring, and no full channel refuses a signal. */
  ghost predicate Untroubled(s: State, e: Event)
    requires Enabled(s, e)
  {
    match e
    case Teardown(_) => false
    case Drop(_) => false
    case Stop(_) => false
    case StepPeer(c, _) => s.streams[c].wire[0].Changes?
    case StepCreateOffer(c, n, _) => !Judge(s.hub, OfferSide, TaskOf(s, c, n).remote).Overfull?
    case StepReceiveOffer(c, n, _) => !Judge(s.hub, AnswerSide, TaskOf(s, c, n).remote).Overfull?
    case _ => true
  }

  ghost predicate Calm(ss: seq<State>, es: seq<Event>)
    requires IsRun(ss, es)
  {
    forall i :: 0 <= i < |es| ==> Untroubled(ss[i], es[i])
  }

  ghost predicate SidesOpen(s: State, c: Id)
    requires c in s.nodes && c in s.hub.peers
  {
    s.nodes[c].phase != Stopped ==>
      && (s.nodes[c].phase in {OfferOpen, Running} <==> OfferSide in s.hub.peers[c])
      && (s.nodes[c].phase == Running <==> AnswerSide in s.hub.peers[c])
  }

  /** Every client is registered and listens as far as it has started, and every stream is alive. */
  ghost predicate CalmHub(s: State) {
    && (forall c :: c in s.nodes ==> c in s.hub.peers && SidesOpen(s, c))
    && (forall key :: key in s.hub.chans ==> s.hub.chans[key].alive)
  }

  /** A client's phase changed at most by opening its peer listener or by stopping. */
  predicate PhaseMoved(before: Phase, after: Phase) {
    after == before || after == Stopped || (before == Advertised && after == PeerOpen)
  }

  /** A client moved, without opening a listener, while all registrations and streams stayed. */
  lemma CalmMoved(s: State, s': State, c: Id)
    requires CalmHub(s) && c in s.nodes && c in s'.nodes && s'.nodes == s.nodes[c := s'.nodes[c]]
    requires PhaseMoved(s.nodes[c].phase, s'.nodes[c].phase)
    requires s'.hub.peers == s.hub.peers && forall key :: key in s'.hub.chans ==> s'.hub.chans[key].alive
    ensures CalmHub(s')
  {
  }

  lemma ClientMoves(s: State, e: Event)
    requires Enabled(s, e) && (e.OpenPeer? || e.StepPeer? || e.SyncReply?)
    ensures var s', c := Apply(s, e), e.c;
      s'.hub == s.hub && c in s'.nodes && s'.nodes == s.nodes[c := s'.nodes[c]]
      && PhaseMoved(s.nodes[c].phase, s'.nodes[c].phase)
  {
  }

  lemma CalmLocally(s: State, e: Event)
    requires CalmHub(s) && Enabled(s, e) && AtClient(e) && !e.Stop?
    ensures CalmHub(Apply(s, e))
  {
    LocalKeepsHub(s, e);
    if ChainEvent(e) {
      ChainEventUndisturbed(s, e);
      CalmMoved(s, Apply(s, e), ActorOf(e).value);
    } else if !e.PumpPeer? {
      ClientMoves(s, e);
      CalmMoved(s, Apply(s, e), e.c);
    }
  }

  lemma CalmSend(h: Hub, side: Side, r: Id, x: Signal)
    requires HubInv(h) && forall key :: key in h.chans ==> h.chans[key].alive
    ensures var h' := Send(h, side, r, x).0;
      h'.peers == h.peers && h'.log == h.log && h'.gen == h.gen && (forall key :: key in h'.chans ==> h'.chans[key].alive)
  {
  }

  lemma CalmSignalsHub(s: State, e: Event)
    requires HubInv(s.hub) && (forall key :: key in s.hub.chans ==> s.hub.chans[key].alive)
    requires Enabled(s, e) && (e.StepCreateOffer? || e.StepReceiveOffer? || e.StepListener?)
    ensures var h' := Apply(s, e).hub;
      h'.peers == s.hub.peers && h'.log == s.hub.log && h'.gen == s.hub.gen && forall key :: key in h'.chans ==> h'.chans[key].alive
  {
    hide HubInv, Send;
    match e
    case StepCreateOffer(c, n, offer) =>
      CreateOfferHub(s, c, n, offer);
      CalmSend(s.hub, OfferSide, TaskOf(s, c, n).remote, Signal(c, offer));
    case StepReceiveOffer(c, n, answer) =>
      ReceiveOfferHub(s, c, n, answer);
      CalmSend(s.hub, AnswerSide, TaskOf(s, c, n).remote, Signal(c, answer));
    case StepListener(c, n) => ListenerHub(s, c, n);
  }

  lemma CalmSignals(s: State, e: Event)
    requires HubInv(s.hub) && CalmHub(s) && Enabled(s, e) && (e.StepCreateOffer? || e.StepReceiveOffer? || e.StepListener?)
    ensures CalmHub(Apply(s, e))
  {
    hide HubInv, SidesOpen;
    ChainEventUndisturbed(s, e);
    CalmSignalsHub(s, e);
    CalmMoved(s, Apply(s, e), ActorOf(e).value);
  }

  lemma CalmOpens(s: State, c: Id, side: Side)
    requires CalmHub(s) && Enabled(s, Open(c, side)) && DoOpen(s, c, side).nodes[c].phase != Stopped
    ensures CalmHub(DoOpen(s, c, side))
  {
  }

  lemma CalmAdvertises(s: State)
    requires DiscoveryInv(s) && CalmHub(s) && s.hub.gen < ID_SPACE
    ensures CalmHub(DoAdvertise(s))
  {
    AdvertiseKeeps(s.hub);
    NewcomerOk(s);
    CalmNewcomer(s, DoAdvertise(s));
  }

  lemma CalmNewcomer(s: State, s': State)
    requires CalmHub(s) && s'.nodes == s.nodes[s.hub.gen := NewNode(s.hub.gen)] && s.hub.gen !in s.nodes
    requires s'.hub.chans == s.hub.chans && s'.hub.peers == s.hub.peers[s.hub.gen := {}]
    ensures CalmHub(s')
  {
  }

  lemma CalmForwards(s: State, key: Key)
    requires CalmHub(s) && Enabled(s, Forward(key))
    ensures CalmHub(DoForward(s, key))
  {
  }

  lemma CalmHubKept(s: State, e: Event)
    requires DiscoveryInv(s) && CalmHub(s) && Enabled(s, e)
    requires !e.Teardown? && !e.Drop? && !e.Stop? && NoneStopped(Apply(s, e))
    ensures CalmHub(Apply(s, e))
  {
    hide HubInv, CalmHub, NodeOk, StreamOk, DiscoveryOk;
    if AtClient(e) {
      CalmLocally(s, e);
    } else if e.StepCreateOffer? || e.StepReceiveOffer? || e.StepListener? {
      CalmSignals(s, e);
    } else if e.Advertise? {
      CalmAdvertises(s);
    } else if e.Open? {
      hide DiscoveryInv;
      assert Apply(s, e).nodes[e.c].phase != Stopped;
      CalmOpens(s, e.c, e.side);
    } else {
      CalmForwards(s, e.key);
    }
  }

  /** No offer and no answer was refused. */
  ghost predicate NoneRefused(s: State) {
    forall p :: p in s.chains ==> !s.chains[p].OfferRefused? && !s.chains[p].AnswerRefused?
  }

  ghost predicate ListsAllOlder(s: State) {
    forall c, r: Id :: c in s.streams && r < c ==> r in s.streams[c].order
  }

  lemma OpenListsOlder(s: State, c: Id, order: seq<Id>)
    requires DiscoveryInv(s) && CalmHub(s) && ListsAllOlder(s) && Enabled(s, OpenPeer(c, order))
    ensures ListsAllOlder(DoOpenPeer(s, c, order))
  {
    forall r: Id | r < c ensures r in order {
      assert r in s.nodes;
      assert r in Discover(s.hub, c);
    }
    hide DiscoveryInv, CalmHub;
  }

  lemma ListsAllOlderKept(s: State, e: Event)
    requires DiscoveryInv(s) && CalmHub(s) && ListsAllOlder(s) && Enabled(s, e)
    ensures ListsAllOlder(Apply(s, e))
  {
    hide HubInv, SidesOpen, StreamOk, DiscoveryOk, NodeOk;
    if e.OpenPeer? {
      OpenListsOlder(s, e.c, e.order);
    } else if e.Advertise? {
      NewcomerOk(s);
    } else {
      OthersSameStarts(s, e);
    }
  }

  lemma StartsRefuseNone(s: State, s': State, c: Id, n: nat, order: seq<Id>)
    requires NoneRefused(s) && Starts(s, s', c, n, order)
    ensures NoneRefused(s')
  {
  }

  lemma OneChainRefusesNone(s: State, s': State, p: Pair)
    requires NoneRefused(s) && p in s'.chains && s'.chains == s.chains[p := s'.chains[p]]
    requires !s'.chains[p].OfferRefused? && !s'.chains[p].AnswerRefused?
    ensures NoneRefused(s')
  {
  }

  /** A running target is found listening, and only a full channel would refuse the signal. */
  lemma RunningTargetAccepts(s: State, side: Side, r: Id, x: Signal)
    requires HubInv(s.hub) && CalmHub(s) && r in s.nodes && s.nodes[r].phase == Running
    ensures Send(s.hub, side, r, x).1 in {Ok(()), Err(Aborted)}
  {
  }

  /** An older peer in an initial list is running, and so is an offerer. */
  lemma TargetsRun(s: State, p: Pair)
    requires DiscoveryInv(s) && SerialInv(s) && NoneStopped(s) && PairOk(s, p)
    ensures s.nodes[p.offerer].phase == Running && s.nodes[p.answerer].phase == Running
  {
    assert At(s, p.offerer);
    assert p.answerer < p.offerer < s.hub.gen;
  }

  lemma OfferNotRefused(s: State, s': State, c: Id, n: nat, r: Id, offer: Payload)
    requires DiscoveryInv(s) && ChainInv(s) && SerialInv(s) && CalmHub(s) && NoneStopped(s) && NoneRefused(s)
    requires Offers(s, s', c, n, r, offer) && s'.nodes[c].phase != Stopped
    ensures NoneRefused(s')
  {
    assert TaskOk(s, c, n, Client.CreateOffer(r));
    assert ChainOk(s, Pair(c, r));
    TargetsRun(s, Pair(c, r));
    RunningTargetAccepts(s, OfferSide, r, Signal(c, offer));
    OneChainRefusesNone(s, s', Pair(c, r));
  }

  lemma AnswerNotRefused(s: State, s': State, c: Id, n: nat, r: Id, j: nat, answer: Payload)
    requires DiscoveryInv(s) && ChainInv(s) && SerialInv(s) && CalmHub(s) && NoneStopped(s) && NoneRefused(s)
    requires Answers(s, s', c, n, r, j, answer) && s'.nodes[c].phase != Stopped
    ensures NoneRefused(s')
  {
    assert TaskOk(s, c, n, s.nodes[c].core.tasks[n]);
    assert ChainOk(s, Pair(r, c));
    TargetsRun(s, Pair(r, c));
    RunningTargetAccepts(s, AnswerSide, r, Signal(c, answer));
    OneChainRefusesNone(s, s', Pair(r, c));
  }

  ghost predicate MeshInv(s: State) {
    && DiscoveryInv(s) && ChainInv(s) && SerialInv(s) && ConnInv(s) && OneSided(s)
    && CalmHub(s) && NoneStopped(s) && NoneRefused(s) && ListsAllOlder(s)
  }

  lemma SignalsNotRefused(s: State, e: Event)
    requires MeshInv(s) && Enabled(s, e) && (e.StepCreateOffer? || e.StepReceiveOffer?) && NoneStopped(Apply(s, e))
    ensures NoneRefused(Apply(s, e))
  {
    hide HubInv, At, ChainsOk, MessagesOk, RecordsOk, TasksOk, SerialInv, CalmHub, NoneRefused, ConnInv, OneSided, ListsAllOlder;
    InsertsAndPlacesSucceed(s, e.c, e.n);
    match e
    case StepCreateOffer(c, n, offer) =>
      CreateOfferWorks(s, c, n, offer);
      OfferNotRefused(s, Apply(s, e), c, n, TaskOf(s, c, n).remote, offer);
    case StepReceiveOffer(c, n, answer) =>
      ReceiveOfferWorks(s, c, n, answer);
      AnswerNotRefused(s, Apply(s, e), c, n, TaskOf(s, c, n).remote, TaskOf(s, c, n).at, answer);
  }

  lemma ListenerRefusesNone(s: State, c: Id, n: nat)
    requires HubInv(s.hub) && ChainInv(s) && NoneRefused(s) && Enabled(s, StepListener(c, n))
    ensures NoneRefused(Apply(s, StepListener(c, n)))
  {
    var side, i, x := ListenerReads(s, c, n);
    StageBeforeDelivery(s, c, side, i, x);
    OneChainRefusesNone(s, DoStepListener(s, c, n), SignalPair(Key(side, c), x));
  }

  lemma CompletionRefusesNone(s: State, e: Event)
    requires ChainInv(s) && ConnInv(s) && OneSided(s) && NoneRefused(s) && Enabled(s, e) && (e.StepReceiveAnswer? || e.StepCplt?)
    ensures NoneRefused(Apply(s, e))
  {
    hide ChainsOk, MessagesOk, RecordsOk, ConnInv, OneSided;
    match e
    case StepReceiveAnswer(c, n) =>
      InsertsAndPlacesSucceed(s, c, n);
      ReceiveAnswerCompletes(s, c, n);
      OneChainRefusesNone(s, DoStepReceiveAnswer(s, c, n), Pair(c, TaskOf(s, c, n).remote));
    case StepCplt(c, n) =>
      CpltCompletes(s, c, n);
      OneChainRefusesNone(s, DoStepCplt(s, c, n), TaskPair(c, TaskOf(s, c, n)));
  }

  lemma StepPeerRefusesNone(s: State, c: Id, n: nat)
    requires DiscoveryInv(s) && ChainInv(s) && NoneRefused(s) && Enabled(s, StepPeer(c, n))
    ensures NoneRefused(DoStepPeer(s, c, n))
  {
    hide DiscoveryInv, ChainInv, NoneRefused, Starts, SameChains, DoStepPeer;
    if s.nodes[c].core.first {
      FirstMessageStarts(s, c, n);
      StartsRefuseNone(s, DoStepPeer(s, c, n), c, n, s.streams[c].order);
    } else {
      LaterMessageSame(s, c, n);
      SameChainsRefuseNone(s, DoStepPeer(s, c, n));
    }
  }

  lemma SameChainsRefuseNone(s: State, s': State)
    requires NoneRefused(s) && SameChains(s, s')
    ensures NoneRefused(s')
  {
  }

  lemma IdleRefusesNone(s: State, e: Event)
    requires MeshInv(s) && Enabled(s, e) && Idle(e)
    ensures NoneRefused(Apply(s, e))
  {
    hide DiscoveryInv, ChainInv, SerialInv, ConnInv, OneSided, CalmHub, ListsAllOlder, SameChans, SameNode;
    IdleSame(s, e);
  }

  lemma NoneRefusedKept(s: State, e: Event)
    requires MeshInv(s) && Enabled(s, e) && NoneStopped(Apply(s, e))
    ensures NoneRefused(Apply(s, e))
  {
    hide NoneStopped, NoneRefused, DiscoveryInv, ChainInv, SerialInv, ConnInv, CalmHub, OneSided, ListsAllOlder, Enabled, DoStepPeer;
    if Idle(e) {
      IdleRefusesNone(s, e);
    } else if e.StepCreateOffer? || e.StepReceiveOffer? {
      SignalsNotRefused(s, e);
    } else if e.StepPeer? {
      StepPeerRefusesNone(s, e.c, e.n);
    } else {
      ProgressRefusesNone(s, e);
    }
  }

  lemma ProgressRefusesNone(s: State, e: Event)
    requires MeshInv(s) && Enabled(s, e) && (e.StepListener? || e.StepReceiveAnswer? || e.StepCplt?)
    ensures NoneRefused(Apply(s, e))
  {
    hide ChainInv, SerialInv, ConnInv, OneSided, CalmHub, NoneStopped, NoneRefused, ListsAllOlder, HubInv;
    if e.StepListener? {
      ListenerRefusesNone(s, e.c, e.n);
    } else {
      CompletionRefusesNone(s, e);
    }
  }

  lemma CalmListenersOpen(s: State, e: Event, c: Id)
    requires HubInv(s.hub) && CalmHub(s) && Enabled(s, e)
    ensures !RefusedListener(s, e, c)
  {
  }

  /** An untroubled event is none of those that stop a client. */
  lemma UntroubledStopsNobody(s: State, e: Event, c: Id)
    requires HubInv(s.hub) && ChainInv(s) && OneSided(s) && CalmHub(s) && Enabled(s, e) && Untroubled(s, e)
    ensures !StopsBy(s, e, c)
  {
    hide HubInv, ChainInv, OneSided, CalmHub, Crosses, RefusedListener;
    CalmListenersOpen(s, e, c);
    CrossingHasBoth(s, e, c);
  }

  lemma NewcomersRun(s: State, e: Event, c: Id)
    requires DiscoveryInv(s) && Enabled(s, e) && c !in s.nodes && c in Apply(s, e).nodes
    ensures Apply(s, e).nodes[c].phase != Stopped
  {
    hide HubInv, StreamOk, DiscoveryOk, NodeOk;
    DiscoveryKept(s, e);
    if e.Advertise? {
      NewcomerOk(s);
    } else {
      GenStays(s, e);
    }
  }

  /** With serialised starts an untroubled event stops nobody. */
  lemma NoneStoppedKept(s: State, e: Event)
    requires MeshInv(s) && Enabled(s, e) && Untroubled(s, e)
    ensures NoneStopped(Apply(s, e))
  {
    hide ChainInv, SerialInv, ConnInv, OneSided, CalmHub, NoneRefused, ListsAllOlder, DiscoveryInv, StopsBy, Enabled, Apply, Untroubled;
    forall c | c in Apply(s, e).nodes ensures Apply(s, e).nodes[c].phase != Stopped {
      if c in s.nodes {
        EventStops(s, e, c);
        HubOf(s);
        UntroubledStopsNobody(s, e, c);
      } else {
        NewcomersRun(s, e, c);
      }
    }
  }

  lemma HubOf(s: State)
    requires DiscoveryInv(s)
    ensures HubInv(s.hub)
  {
  }

  lemma MeshKept(s: State, e: Event)
    requires MeshInv(s) && Enabled(s, e) && Untroubled(s, e)
    requires e.Advertise? ==> forall c :: c in s.nodes ==> s.nodes[c].phase in {Running, Stopped}
    ensures MeshInv(Apply(s, e))
  {
    hide SerialInv, ConnInv, CalmHub, ListsAllOlder, ChainInv, DiscoveryInv, NoneRefused;
    NoneStoppedKept(s, e);
    DiscoveryKept(s, e);
    ChainsKept(s, e);
    SerialKept(s, e);
    SerialIsOneSided(Apply(s, e));
    ConnsKept(s, e);
    CalmHubKept(s, e);
    NoneRefusedKept(s, e);
    ListsAllOlderKept(s, e);
  }

  lemma MeshInitially()
    ensures MeshInv(INITIAL)
  {
  }

  lemma {:induction false} MeshAlways(ss: seq<State>, es: seq<Event>, i: nat)
    requires IsRun(ss, es) && Serial(ss, es) && Calm(ss, es) && i < |ss|
    ensures MeshInv(ss[i])
  {
    hide Enabled, Apply;
    if i == 0 {
      MeshInitially();
    } else {
      MeshAlways(ss, es, i - 1);
      assert Untroubled(ss[i - 1], es[i - 1]);
      MeshKept(ss[i - 1], es[i - 1]);
    }
  }
}
