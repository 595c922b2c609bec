/** Every pair of peers gets an offer through, as long as nobody advertises between another peer's
    opening its peer listener and its offer listener. */
module Coverage {
  import opened Vocabulary
  import opened Channels
  import opened Broadcast
  import opened Server
  import opened System
  import opened Registry
  import opened Discovery
  import opened Chains
  import opened Causality
  import opened Connections
  import Convergence
  import Client
  import ConnectionMap

  /** Every chain that a client's first message called for has started. */
  ghost predicate Launched(s: State) {
    forall c, r :: c in s.streams && c in s.nodes && !s.nodes[c].core.first && r in s.streams[c].order ==> Pair(c, r) in s.chains
  }

  /** The initial lists and the ends of first discoveries stay, and no chain gets lost. */
  lemma LaunchedStays(s: State, s': State)
    requires Launched(s) && forall p :: p in s.chains ==> p in s'.chains
    requires forall c :: c in s'.streams && c in s'.nodes && !s'.nodes[c].core.first ==>
      c in s.streams && c in s.nodes && !s.nodes[c].core.first && s'.streams[c].order == s.streams[c].order
    ensures Launched(s')
  {
  }

  lemma IdleLaunched(s: State, e: Event)
    requires DiscoveryInv(s) && ChainInv(s) && Launched(s) && Enabled(s, e) && Idle(e)
    ensures Launched(Apply(s, e))
  {
    IdleSame(s, e);
    if e.Advertise? {
      NewcomerOk(s);
    } else if e.OpenPeer? {
      assert At(s, e.c);
    } else {
      OthersSameStarts(s, e);
    }
    LaunchedStays(s, Apply(s, e));
  }

  lemma StartsLaunched(s: State, s': State, c: Id, n: nat, order: seq<Id>)
    requires Launched(s) && Starts(s, s', c, n, order)
    ensures Launched(s')
  {
  }

  /** An event at a client on one chain of its own. */
  ghost predicate OneChain(s: State, s': State, c: Id) {
    && c in s.nodes && c in s'.nodes && s'.nodes == s.nodes[c := s'.nodes[c]] && s'.streams == s.streams
    && s'.nodes[c].core.first == s.nodes[c].core.first
    && forall p :: p in s.chains ==> p in s'.chains
  }

  lemma OneChainLaunched(s: State, s': State, c: Id)
    requires Launched(s) && OneChain(s, s', c)
    ensures Launched(s')
  {
  }

  lemma ChainEventOneChain(s: State, e: Event)
    requires Enabled(s, e) && ChainEvent(e)
    ensures OneChain(s, Apply(s, e), ActorOf(e).value)
  {
    ChainEventUndisturbed(s, e);
    match e
    case StepListener(c, n) =>
    case StepCreateOffer(c, n, offer) =>
    case StepReceiveOffer(c, n, answer) =>
    case Take(c, n) =>
    case StepReceiveAnswer(c, n) =>
    case StepCplt(c, n) =>
  }

  lemma StepPeerLaunched(s: State, c: Id, n: nat)
    requires DiscoveryInv(s) && ChainInv(s) && Launched(s) && Enabled(s, StepPeer(c, n))
    ensures Launched(DoStepPeer(s, c, n))
  {
    if s.nodes[c].core.first {
      FirstMessageStarts(s, c, n);
      StartsLaunched(s, DoStepPeer(s, c, n), c, n, s.streams[c].order);
    } else {
      LaterMessageSame(s, c, n);
      OthersSameStarts(s, StepPeer(c, n));
      LaunchedStays(s, DoStepPeer(s, c, n));
    }
  }

  lemma LaunchedKept(s: State, e: Event)
    requires DiscoveryInv(s) && ChainInv(s) && Launched(s) && Enabled(s, e)
    ensures Launched(Apply(s, e))
  {
    if ChainEvent(e) {
      ChainEventOneChain(s, e);
      OneChainLaunched(s, Apply(s, e), ActorOf(e).value);
    } else if e.StepPeer? {
      StepPeerLaunched(s, e.c, e.n);
    } else {
      IdleLaunched(s, e);
    }
  }

  lemma {:induction false} LaunchedAlways(ss: seq<State>, es: seq<Event>, i: nat)
    requires IsRun(ss, es) && i < |ss|
    ensures Launched(ss[i])
  {
    hide Enabled, Apply, DiscoveryInv, ChainInv;
    if i > 0 {
      ChainsAlways(ss, es, i - 1);
      LaunchedAlways(ss, es, i - 1);
      LaunchedKept(ss[i - 1], es[i - 1]);
    }
  }

  /** Of two registered peers that opened their peer listeners, one is in the other's initial list. */
  ghost predicate Oriented(s: State) {
    forall a, b :: a in s.streams && b in s.streams && a != b && a in s.hub.peers && b in s.hub.peers ==>
      a in s.streams[b].order || b in s.streams[a].order
  }

  /** A registered client that got past opening its offer listener is found listening. */
  ghost predicate OffersOpen(s: State) {
    forall c :: c in s.nodes && c in s.hub.peers && (s.nodes[c].phase in {OfferOpen, Running} || !s.nodes[c].core.first) ==>
      OfferSide in s.hub.peers[c]
  }

  /** Between opening its peer listener and its offer listener a client's list is up to date. */
  ghost predicate WindowsClosed(s: State) {
    forall t, o :: t in s.nodes && s.nodes[t].phase == PeerOpen && t in s.streams && o in s.hub.peers && o != t ==>
      o in s.streams[t].order
  }

  /** What a refused offer says about the pair from then on. */
  ghost predicate RefusalOk(s: State, p: Pair, why: Verdict) {
    match why
    case Absent => p.answerer !in s.hub.peers
    case Gone => p.answerer !in s.hub.peers
    case Overfull => p.offerer in s.nodes && s.nodes[p.offerer].phase == Stopped
    case NotListening =>
      || (p.answerer in s.nodes && s.nodes[p.answerer].phase == Stopped) || p.offerer !in s.hub.peers
      || p.answerer !in s.streams || p.offerer in s.streams[p.answerer].order
    case Accept => false
  }

  ghost predicate RefusalsOk(s: State) {
    forall p :: p in s.chains && s.chains[p].OfferRefused? ==> RefusalOk(s, p, s.chains[p].why)
  }

  predicate NotHeard(s: State, p: Pair) {
    p in s.chains && s.chains[p] == OfferRefused(NotListening)
  }

  /** Never do both peers of a pair find the other not listening. */
  ghost predicate OneHears(s: State) {
    forall p :: NotHeard(s, p) ==> !NotHeard(s, Pair(p.answerer, p.offerer))
  }

  /** The registry only shrinks among IDs issued before, listeners stay open, and lists stay. */
  ghost predicate Settles(s: State, s': State) {
    && (forall id :: id < s.hub.gen && id in s'.hub.peers ==> id in s.hub.peers && s.hub.peers[id] <= s'.hub.peers[id])
    && (forall c :: c in s.streams ==> c in s'.streams && s'.streams[c].order == s.streams[c].order)
  }

  lemma NoReturnStep(s: State, e: Event, id: Id)
    requires HubInv(s.hub) && Enabled(s, e) && id < s.hub.gen && id in Apply(s, e).hub.peers
    ensures id in s.hub.peers
  {
    HubKept(s, e);
    if id !in s.hub.peers {
      Convergence.EvolvesWithoutReturn(s.hub, Apply(s, e).hub, id);
    }
  }

  lemma SentSides(h: Hub, h': Hub, side: Side, r: Id, x: Signal, id: Id)
    requires (h' == h || h' == Send(h, side, r, x).0) && id in h.peers
    ensures id in h'.peers ==> h'.peers[id] == h.peers[id]
  {
  }

  lemma SignallingSides(s: State, e: Event, id: Id)
    requires Enabled(s, e) && (e.StepCreateOffer? || e.StepReceiveOffer? || e.StepListener?) && id in s.hub.peers
    ensures id in Apply(s, e).hub.peers ==> Apply(s, e).hub.peers[id] == s.hub.peers[id]
  {
    hide Send;
    match e
    case StepCreateOffer(c, n, offer) =>
      CreateOfferHub(s, c, n, offer);
      SentSides(s.hub, Apply(s, e).hub, OfferSide, TaskOf(s, c, n).remote, Signal(c, offer), id);
    case StepReceiveOffer(c, n, answer) =>
      ReceiveOfferHub(s, c, n, answer);
      SentSides(s.hub, Apply(s, e).hub, AnswerSide, TaskOf(s, c, n).remote, Signal(c, answer), id);
    case StepListener(c, n) => ListenerHub(s, c, n);
  }

  lemma SidesStay(s: State, e: Event, id: Id)
    requires HubInv(s.hub) && Enabled(s, e) && id in s.hub.peers && id in Apply(s, e).hub.peers
    ensures s.hub.peers[id] <= Apply(s, e).hub.peers[id]
  {
    hide Evolves;
    if AtClient(e) {
      LocalKeepsHub(s, e);
    } else if e.StepCreateOffer? || e.StepReceiveOffer? || e.StepListener? {
      SignallingSides(s, e, id);
    } else if e.Advertise? {
      AdvertiseKeeps(s.hub);
    }
  }

  lemma StreamsStay(s: State, e: Event, c: Id)
    requires DiscoveryInv(s) && Enabled(s, e) && c in s.streams
    ensures c in Apply(s, e).streams && Apply(s, e).streams[c].order == s.streams[c].order
  {
    assert At(s, c);
    if ChainEvent(e) {
      ChainEventUndisturbed(s, e);
    } else if e.Advertise? {
      NewcomerOk(s);
    } else if ActorOf(e).None? {
      EventsOnTheSide(s, e);
    } else {
      ActorStreams(s, e, c);
    }
  }

  lemma ActorStreams(s: State, e: Event, c: Id)
    requires Enabled(s, e) && c in s.streams && c in s.nodes && s.nodes[c].phase != Advertised
    requires e.OpenPeer? || e.Open? || e.PumpPeer? || e.StepPeer? || e.SyncReply? || e.Stop?
    ensures c in Apply(s, e).streams && Apply(s, e).streams[c].order == s.streams[c].order
  {
  }

  lemma EventSettles(s: State, e: Event)
    requires DiscoveryInv(s) && Enabled(s, e)
    ensures Settles(s, Apply(s, e))
  {
    forall id | id < s.hub.gen && id in Apply(s, e).hub.peers
      ensures id in s.hub.peers && s.hub.peers[id] <= Apply(s, e).hub.peers[id]
    {
      NoReturnStep(s, e, id);
      SidesStay(s, e, id);
    }
    forall c | c in s.streams ensures c in Apply(s, e).streams && Apply(s, e).streams[c].order == s.streams[c].order {
      StreamsStay(s, e, c);
    }
  }

  lemma OrientedKept(s: State, e: Event)
    requires DiscoveryInv(s) && Oriented(s) && Enabled(s, e) && Settles(s, Apply(s, e))
    ensures Oriented(Apply(s, e))
  {
    if e.Advertise? {
      NewcomerOk(s);
    } else if e.OpenPeer? {
      OpenPeerOriented(s, e.c, e.order);
    } else {
      OthersSameStarts(s, e);
      OrientedStays(s, Apply(s, e));
    }
  }

  lemma OrientedStays(s: State, s': State)
    requires Oriented(s) && Settles(s, s') && (forall c :: c in s'.streams ==> c in s.streams)
    requires forall c :: c in s.streams ==> c < s.hub.gen
    ensures Oriented(s')
  {
  }

  lemma OpenPeerOriented(s: State, c: Id, order: seq<Id>)
    requires Oriented(s) && Enabled(s, OpenPeer(c, order))
    ensures Oriented(DoOpenPeer(s, c, order))
  {
  }

  predicate PastOffers(node: Node) {
    node.phase in {OfferOpen, Running} || !node.core.first
  }

  /** Only opening the offer listener gets a client past it. */
  lemma PastBefore(s: State, e: Event, c: Id)
    requires DiscoveryInv(s) && Enabled(s, e) && !e.Open? && !e.Advertise? && c in Apply(s, e).nodes && PastOffers(Apply(s, e).nodes[c])
    ensures c in s.nodes && PastOffers(s.nodes[c])
  {
    if ChainEvent(e) {
      ChainEventUndisturbed(s, e);
    } else if ActorOf(e).None? {
      EventsOnTheSide(s, e);
    } else {
      ActorPast(s, e, c);
    }
  }

  lemma ActorPast(s: State, e: Event, c: Id)
    requires Enabled(s, e) && c in Apply(s, e).nodes && PastOffers(Apply(s, e).nodes[c])
    requires e.OpenPeer? || e.PumpPeer? || e.StepPeer? || e.SyncReply? || e.Stop?
    ensures c in s.nodes && PastOffers(s.nodes[c])
  {
  }

  lemma OffersOpenKept(s: State, e: Event)
    requires DiscoveryInv(s) && OffersOpen(s) && Enabled(s, e) && Settles(s, Apply(s, e))
    ensures OffersOpen(Apply(s, e))
  {
    if e.Advertise? {
      NewcomerOk(s);
    } else if e.Open? {
      assert At(s, e.c);
      OpenOffersOpen(s, e.c, e.side);
    } else {
      var s' := Apply(s, e);
      forall c | c in s'.nodes && c in s'.hub.peers && PastOffers(s'.nodes[c]) ensures OfferSide in s'.hub.peers[c] {
        PastBefore(s, e, c);
      }
    }
  }

  lemma OpenOffersOpen(s: State, c: Id, side: Side)
    requires OffersOpen(s) && Enabled(s, Open(c, side)) && NodeOk(c, s.nodes[c])
    ensures OffersOpen(DoOpen(s, c, side))
  {
  }

  lemma WindowsKept(s: State, e: Event)
    requires DiscoveryInv(s) && WindowsClosed(s) && Enabled(s, e) && Settles(s, Apply(s, e))
    requires e.Advertise? ==> forall c :: c in s.nodes ==> s.nodes[c].phase != PeerOpen
    ensures WindowsClosed(Apply(s, e))
  {
    if e.Advertise? {
      NewcomerOk(s);
    } else if e.OpenPeer? {
      OpenPeerWindows(s, e.c, e.order);
    } else {
      PeerOpenBefore(s, e);
    }
  }

  lemma OpenPeerWindows(s: State, c: Id, order: seq<Id>)
    requires WindowsClosed(s) && Enabled(s, OpenPeer(c, order))
    ensures WindowsClosed(DoOpenPeer(s, c, order))
  {
  }

  lemma PeerOpenBefore(s: State, e: Event)
    requires DiscoveryInv(s) && WindowsClosed(s) && Enabled(s, e) && Settles(s, Apply(s, e)) && !e.Advertise? && !e.OpenPeer?
    ensures WindowsClosed(Apply(s, e))
  {
    OthersSameStarts(s, e);
    HubKept(s, e);
    var s' := Apply(s, e);
    forall t, o | t in s'.nodes && s'.nodes[t].phase == PeerOpen && t in s'.streams && o in s'.hub.peers && o != t
      ensures o in s'.streams[t].order
    {
      WasPeerOpen(s, e, t);
    }
  }

  lemma WasPeerOpen(s: State, e: Event, t: Id)
    requires Enabled(s, e) && !e.Advertise? && !e.OpenPeer? && t in Apply(s, e).nodes && Apply(s, e).nodes[t].phase == PeerOpen
    ensures t in s.nodes && s.nodes[t].phase == PeerOpen
  {
    if ChainEvent(e) {
      ChainEventUndisturbed(s, e);
    } else if ActorOf(e).None? {
      EventsOnTheSide(s, e);
    } else {
      match e
      case Open(x, side) =>
      case PumpPeer(x) =>
      case StepPeer(x, n) => PeerEventShape(s.nodes[x], s.hub, n, s.streams[x].wire[0]);
      case SyncReply(x) =>
      case Stop(x) =>
    }
  }

  lemma ActorStopped(s: State, e: Event, c: Id)
    requires Enabled(s, e) && c in s.nodes && s.nodes[c].phase == Stopped
    requires e.OpenPeer? || e.Open? || e.PumpPeer? || e.StepPeer? || e.SyncReply? || e.Stop?
    ensures c in Apply(s, e).nodes && Apply(s, e).nodes[c] == s.nodes[c]
  {
    match e
    case OpenPeer(x, order) =>
    case Open(x, side) =>
    case PumpPeer(x) =>
    case StepPeer(x, n) =>
    case SyncReply(x) =>
    case Stop(x) =>
  }

  lemma StoppedStays(s: State, e: Event, c: Id)
    requires DiscoveryInv(s) && Enabled(s, e) && c in s.nodes && s.nodes[c].phase == Stopped
    ensures c in Apply(s, e).nodes && Apply(s, e).nodes[c] == s.nodes[c]
  {
    hide HubInv, StreamOk, DiscoveryOk, NodeOk;
    if ChainEvent(e) {
      ChainEventUndisturbed(s, e);
    } else if e.Advertise? {
      NewcomerOk(s);
    } else if ActorOf(e).None? {
      EventsOnTheSide(s, e);
    } else {
      ActorStopped(s, e, c);
    }
  }

  /** What a refusal once said stays true. */
  lemma RefusalStays(s: State, e: Event, p: Pair, why: Verdict)
    requires DiscoveryInv(s) && Enabled(s, e) && Settles(s, Apply(s, e)) && PairOk(s, p) && RefusalOk(s, p, why)
    ensures RefusalOk(Apply(s, e), p, why)
  {
    var s' := Apply(s, e);
    if s.nodes[p.offerer].phase == Stopped {
      StoppedStays(s, e, p.offerer);
    }
    if s.nodes[p.answerer].phase == Stopped {
      StoppedStays(s, e, p.answerer);
    }
    if why.NotListening? && p.answerer !in s.streams && p.answerer in s'.streams && p.offerer in s'.hub.peers {
      ListsOfferer(s, e, p);
    }
  }

  lemma ListsOfferer(s: State, e: Event, p: Pair)
    requires DiscoveryInv(s) && Enabled(s, e) && p.offerer != p.answerer && p.offerer in s.hub.peers
    requires p.answerer !in s.streams && p.answerer in Apply(s, e).streams
    ensures p.offerer in Apply(s, e).streams[p.answerer].order
  {
    if e.Advertise? {
      NewcomerOk(s);
    } else if e.OpenPeer? {
      assert p.offerer in Discover(s.hub, p.answerer);
    } else {
      OthersSameStarts(s, e);
    }
  }

  /** Refused offers are as before. */
  ghost predicate NoNewRefusal(s: State, s': State) {
    forall p :: p in s'.chains && s'.chains[p].OfferRefused? ==> p in s.chains && s.chains[p] == s'.chains[p]
  }

  lemma StartsRefusesNone(s: State, s': State, c: Id, n: nat, order: seq<Id>)
    requires Starts(s, s', c, n, order)
    ensures NoNewRefusal(s, s')
  {
  }

  lemma StepPeerRefusesNone(s: State, c: Id, n: nat)
    requires DiscoveryInv(s) && ChainInv(s) && Enabled(s, StepPeer(c, n))
    ensures NoNewRefusal(s, DoStepPeer(s, c, n))
  {
    if s.nodes[c].core.first {
      FirstMessageStarts(s, c, n);
      StartsRefusesNone(s, DoStepPeer(s, c, n), c, n, s.streams[c].order);
    } else {
      LaterMessageSame(s, c, n);
    }
  }

  lemma CompletionsRefuseNone(s: State, e: Event)
    requires Enabled(s, e) && (e.StepReceiveAnswer? || e.StepCplt? || e.StepListener? || e.StepReceiveOffer?)
    ensures NoNewRefusal(s, Apply(s, e))
  {
  }

  lemma OnlyOffersRefuse(s: State, e: Event)
    requires DiscoveryInv(s) && ChainInv(s) && Enabled(s, e) && !e.StepCreateOffer?
    ensures NoNewRefusal(s, Apply(s, e))
  {
    if Idle(e) {
      IdleSame(s, e);
    } else if e.StepPeer? {
      StepPeerRefusesNone(s, e.c, e.n);
    } else {
      CompletionsRefuseNone(s, e);
    }
  }

  /** Why an offer is refused, when it is. */
  lemma NewRefusalOk(s: State, s': State, c: Id, n: nat, r: Id, offer: Payload)
    requires HubInv(s.hub) && Offers(s, s', c, n, r, offer) && PairOk(s, Pair(c, r)) && At(s, r)
    requires OffersOpen(s) && WindowsClosed(s) && OfferStage(s.hub, c, r, offer).OfferRefused?
    ensures RefusalOk(s', Pair(c, r), Judge(s.hub, OfferSide, r))
  {
    var why := Judge(s.hub, OfferSide, r);
    if why.NotListening? {
      assert !PastOffers(s.nodes[r]);
    }
  }

  /** At most the offer of the pair was refused, and for the reason that the server gave. */
  ghost predicate OneRefusal(s: State, s': State, p: Pair) {
    && (forall q :: q in s'.chains && q != p ==> q in s.chains && s.chains[q] == s'.chains[q])
    && (p in s'.chains && s'.chains[p].OfferRefused? ==>
          RefusalOk(s', p, s'.chains[p].why) && s'.chains[p].why == Judge(s.hub, OfferSide, p.answerer))
  }

  lemma OffersRefuseOne(s: State, s': State, c: Id, n: nat, r: Id, offer: Payload)
    requires HubInv(s.hub) && Offers(s, s', c, n, r, offer) && PairOk(s, Pair(c, r)) && At(s, r)
    requires OffersOpen(s) && WindowsClosed(s)
    ensures OneRefusal(s, s', Pair(c, r))
  {
    if OfferStage(s.hub, c, r, offer).OfferRefused? {
      NewRefusalOk(s, s', c, n, r, offer);
    }
  }

  lemma CreateOfferRefusals(s: State, c: Id, n: nat, offer: Payload)
    requires DiscoveryInv(s) && ChainInv(s) && OffersOpen(s) && WindowsClosed(s) && Enabled(s, StepCreateOffer(c, n, offer))
    ensures OneRefusal(s, DoStepCreateOffer(s, c, n, offer), Pair(c, TaskOf(s, c, n).remote))
  {
    var r := TaskOf(s, c, n).remote;
    assert TaskOk(s, c, n, TaskOf(s, c, n)) && ChainOk(s, Pair(c, r));
    CreateOfferWorks(s, c, n, offer);
    if r !in s.nodes[c].conns {
      assert At(s, r);
      OffersRefuseOne(s, DoStepCreateOffer(s, c, n, offer), c, n, r, offer);
    }
  }

  ghost predicate CoverInv(s: State) {
    Oriented(s) && OffersOpen(s) && WindowsClosed(s) && RefusalsOk(s) && OneHears(s)
  }

  lemma RefusalsKept(s: State, e: Event)
    requires DiscoveryInv(s) && ChainInv(s) && OffersOpen(s) && WindowsClosed(s) && RefusalsOk(s) && Enabled(s, e)
    requires Settles(s, Apply(s, e))
    ensures RefusalsOk(Apply(s, e))
  {
    var s' := Apply(s, e);
    if e.StepCreateOffer? {
      CreateOfferRefusals(s, e.c, e.n, e.offer);
    } else {
      OnlyOffersRefuse(s, e);
    }
    forall p | p in s'.chains && s'.chains[p].OfferRefused? ensures RefusalOk(s', p, s'.chains[p].why) {
      if p in s.chains && s.chains[p] == s'.chains[p] {
        assert ChainOk(s, p);
        RefusalStays(s, e, p, s.chains[p].why);
      }
    }
  }

  /** A peer that has signalled an offer is itself found listening. */
  lemma OffererListens(s: State, p: Pair)
    requires HubInv(s.hub) && OffersOpen(s) && PairOk(s, p)
    ensures Judge(s.hub, OfferSide, p.offerer) != NotListening
  {
  }

  lemma OneRefusalHeard(s: State, s': State, p: Pair)
    requires OneHears(s) && OneRefusal(s, s', p) && p.offerer != p.answerer
    requires Pair(p.answerer, p.offerer) in s.chains ==> Judge(s.hub, OfferSide, p.answerer) != NotListening
    ensures OneHears(s')
  {
  }

  lemma NoRefusalHeard(s: State, s': State)
    requires OneHears(s) && NoNewRefusal(s, s')
    ensures OneHears(s')
  {
  }

  lemma OneHearsKept(s: State, e: Event)
    requires DiscoveryInv(s) && ChainInv(s) && OffersOpen(s) && WindowsClosed(s) && OneHears(s) && Enabled(s, e)
    ensures OneHears(Apply(s, e))
  {
    if e.StepCreateOffer? {
      CreateOfferHeard(s, e.c, e.n, e.offer);
    } else {
      OnlyOffersRefuse(s, e);
      NoRefusalHeard(s, Apply(s, e));
    }
  }

  lemma CreateOfferHeard(s: State, c: Id, n: nat, offer: Payload)
    requires DiscoveryInv(s) && ChainInv(s) && OffersOpen(s) && WindowsClosed(s) && OneHears(s) && Enabled(s, StepCreateOffer(c, n, offer))
    ensures OneHears(DoStepCreateOffer(s, c, n, offer))
  {
    hide ChainsOk, TasksOk, MessagesOk, RecordsOk, HubInv, At, OffersOpen, WindowsClosed, OneHears, OneRefusal, DoStepCreateOffer;
    CreateOfferRefusals(s, c, n, offer);
    TaskFact(s, c, n, TaskOf(s, c, n));
    OneOfferHeard(s, DoStepCreateOffer(s, c, n, offer), Pair(c, TaskOf(s, c, n).remote));
  }

  lemma OneOfferHeard(s: State, s': State, p: Pair)
    requires HubInv(s.hub) && ChainsOk(s) && OffersOpen(s) && OneHears(s) && OneRefusal(s, s', p) && p in s.chains
    ensures OneHears(s')
  {
    hide ChainsOk, HubInv, OffersOpen, OneHears, OneRefusal, Judge;
    var back := Pair(p.answerer, p.offerer);
    PairFact(s, p);
    PairFact(s, back);
    if back in s.chains {
      OffererListens(s, back);
    }
    OneRefusalHeard(s, s', p);
  }

  lemma CoverKept(s: State, e: Event)
    requires DiscoveryInv(s) && ChainInv(s) && CoverInv(s) && Enabled(s, e)
    requires e.Advertise? ==> forall c :: c in s.nodes ==> s.nodes[c].phase != PeerOpen
    ensures CoverInv(Apply(s, e))
  {
    EventSettles(s, e);
    OrientedKept(s, e);
    OffersOpenKept(s, e);
    WindowsKept(s, e);
    RefusalsKept(s, e);
    OneHearsKept(s, e);
  }

  /** Nobody advertises between another peer's opening its peer listener and its offer listener. */
  ghost predicate Windowed(ss: seq<State>, es: seq<Event>) {
    forall i :: 0 <= i < |es| && i < |ss| && es[i].Advertise? ==>
      forall c :: c in ss[i].nodes ==> ss[i].nodes[c].phase != PeerOpen
  }

  lemma {:induction false} CoverAlways(ss: seq<State>, es: seq<Event>, i: nat)
    requires IsRun(ss, es) && Windowed(ss, es) && i < |ss|
    ensures CoverInv(ss[i])
  {
    hide Enabled, Apply, DiscoveryInv, ChainInv;
    if i > 0 {
      ChainsAlways(ss, es, i - 1);
      CoverAlways(ss, es, i - 1);
      CoverKept(ss[i - 1], es[i - 1]);
    }
  }

  /** A registered, running client that has created and signalled all offers towards `r`. */
  predicate LiveTowards(s: State, c: Id, r: Id) {
    && c in s.nodes && s.nodes[c].phase == Running && !s.nodes[c].core.first && c in s.hub.peers
    && !(Pair(c, r) in s.chains && s.chains[Pair(c, r)].Creating?)
  }

  predicate OfferAccepted(s: State, p: Pair) {
    p in s.chains && !s.chains[p].Creating? && !s.chains[p].OfferRefused?
  }

  /** Towards a live peer from its own initial list, only "not listening" can have refused an offer,
      and then the other peer listed this one. */
  lemma RefusedOnlyUnheard(s: State, c: Id, r: Id)
    requires DiscoveryInv(s) && Launched(s) && CoverInv(s) && c != r && LiveTowards(s, c, r) && LiveTowards(s, r, c)
    requires c in s.streams && r in s.streams && r in s.streams[c].order
    ensures OfferAccepted(s, Pair(c, r)) || (NotHeard(s, Pair(c, r)) && c in s.streams[r].order)
  {
    assert s.chains[Pair(c, r)].OfferRefused? ==> RefusalOk(s, Pair(c, r), s.chains[Pair(c, r)].why);
  }

  lemma LivePairCovered(s: State, a: Id, b: Id)
    requires DiscoveryInv(s) && Launched(s) && CoverInv(s) && a != b && LiveTowards(s, a, b) && LiveTowards(s, b, a)
    ensures OfferAccepted(s, Pair(a, b)) || OfferAccepted(s, Pair(b, a))
  {
    assert At(s, a) && At(s, b);
    if b in s.streams[a].order {
      RefusedOnlyUnheard(s, a, b);
    }
    if a in s.streams[b].order {
      RefusedOnlyUnheard(s, b, a);
    }
  }

  /** Mesh coverage. If no advertisement lands between any peer's opening of its peer listener and of
      its offer listener, then for any two live peers whose created offers have all been signalled,
      at least one offer was accepted. */
  lemma MeshIsCovered(ss: seq<State>, es: seq<Event>, i: nat, a: Id, b: Id)
    requires IsRun(ss, es) && Windowed(ss, es) && i < |ss| && a != b
    requires LiveTowards(ss[i], a, b) && LiveTowards(ss[i], b, a)
    ensures OfferAccepted(ss[i], Pair(a, b)) || OfferAccepted(ss[i], Pair(b, a))
  {
    Convergence.DiscoveryAlways(ss, es, i);
    LaunchedAlways(ss, es, i);
    CoverAlways(ss, es, i);
    LivePairCovered(ss[i], a, b);
  }

  /** A "not listening" refusal is made up for: once both peers are live, the refused peer's target
      has a chain back to it, and finds it listening. */
  lemma UnheardIsMadeUpFor(ss: seq<State>, es: seq<Event>, i: nat, c: Id, r: Id)
    requires IsRun(ss, es) && Windowed(ss, es) && i < |ss| && NotHeard(ss[i], Pair(c, r))
    requires LiveTowards(ss[i], c, r) && LiveTowards(ss[i], r, c)
    ensures OfferAccepted(ss[i], Pair(r, c)) && Judge(ss[i].hub, OfferSide, c) != NotListening
  {
    Convergence.DiscoveryAlways(ss, es, i);
    ChainsAlways(ss, es, i);
    CoverAlways(ss, es, i);
    assert ChainOk(ss[i], Pair(c, r));
    OffererListens(ss[i], Pair(c, r));
    MeshIsCovered(ss, es, i, c, r);
  }
}
