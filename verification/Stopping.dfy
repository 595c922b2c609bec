/** What stops a client: nothing but its own doing, a lost broadcast, a full channel, or a crossing. */
module Stopping {
  import opened Vocabulary
  import opened Channels
  import opened Server
  import opened System
  import opened Registry
  import opened Discovery
  import opened Chains
  import opened Causality
  import opened Connections
  import opened Crossing
  import Convergence
  import Coverage
  import Client
  import ConnectionMap

  /** The client's offer or answer is refused because the target's channel is full. */
  ghost predicate RefusedAsFull(s: State, e: Event, c: Id)
    requires Enabled(s, e)
  {
    || (e.StepCreateOffer? && e.c == c && Judge(s.hub, OfferSide, TaskOf(s, c, e.n).remote).Overfull?)
    || (e.StepReceiveOffer? && e.c == c && Judge(s.hub, AnswerSide, TaskOf(s, c, e.n).remote).Overfull?)
  }

  ghost predicate ReadsLoss(s: State, e: Event, c: Id)
    requires Enabled(s, e)
  {
    e.StepPeer? && e.c == c && s.streams[c].wire[0].DataLoss?
  }

  /** A client that is starting is refused a listener. */
  ghost predicate RefusedListener(s: State, e: Event, c: Id)
    requires Enabled(s, e)
  {
    e.Open? && e.c == c && OpenListener(s.hub, e.side, c).1.Err?
  }

  ghost predicate StopsBy(s: State, e: Event, c: Id)
    requires Enabled(s, e)
  {
    e == Stop(c) || RefusedListener(s, e, c) || ReadsLoss(s, e, c) || RefusedAsFull(s, e, c) || Crosses(s, e, c)
  }

  ghost predicate StopsExactly(s: State, e: Event, s': State, c: Id)
    requires Enabled(s, e)
  {
    c in s'.nodes && (s'.nodes[c].phase == Stopped <==> StopsBy(s, e, c))
  }

  /** Only a full channel turns a signal into an error for the sender. */
  lemma SentInVain(h: Hub, side: Side, r: Id, x: Signal)
    ensures After(Client.Forgive(Send(h, side, r, x).1)) == if Judge(h, side, r).Overfull? then Stopped else Running
  {
  }

  lemma CreateOfferStops(s: State, n: nat, offer: Payload, x: Id, c: Id)
    requires TasksOk(s) && ConnInv(s) && Goes(s, c) && Enabled(s, StepCreateOffer(x, n, offer))
    ensures StopsExactly(s, StepCreateOffer(x, n, offer), DoStepCreateOffer(s, x, n, offer), c)
  {
    hide TasksOk, ConnInv, AnswerMade, Send, Judge, DoStepCreateOffer, CoreWorked, OfferStage;
    KnownIffCrossing(s, x, n);
    CreateOfferWorks(s, x, n, offer);
    SentInVain(s.hub, OfferSide, TaskOf(s, x, n).remote, Signal(x, offer));
  }

  lemma ReceiveOfferStops(s: State, n: nat, answer: Payload, x: Id, c: Id)
    requires TasksOk(s) && ConnInv(s) && Goes(s, c) && Enabled(s, StepReceiveOffer(x, n, answer))
    ensures StopsExactly(s, StepReceiveOffer(x, n, answer), DoStepReceiveOffer(s, x, n, answer), c)
  {
    hide TasksOk, ConnInv, OfferMade, Send, Judge, DoStepReceiveOffer, CoreWorked, AnswerStage;
    KnownIffCrossing(s, x, n);
    ReceiveOfferWorks(s, x, n, answer);
    SentInVain(s.hub, AnswerSide, TaskOf(s, x, n).remote, Signal(x, answer));
  }

  /** Nobody stops at this event. */
  ghost predicate SameGoing(s: State, s': State) {
    forall c :: Goes(s, c) ==> Goes(s', c)
  }

  lemma ActorGoes(s: State, s': State, c: Id)
    requires c in s'.nodes && s'.nodes == s.nodes[c := s'.nodes[c]] && s'.nodes[c].phase != Stopped
    ensures SameGoing(s, s')
  {
  }

  lemma ReceiveAnswerGoes(s: State, c: Id, n: nat)
    requires TasksOk(s) && ConnInv(s) && Enabled(s, StepReceiveAnswer(c, n))
    ensures SameGoing(s, DoStepReceiveAnswer(s, c, n))
  {
    PlaceSucceeds(s, c, n);
    ReceiveAnswerCompletes(s, c, n);
    hide TasksOk, ConnInv;
    ActorGoes(s, DoStepReceiveAnswer(s, c, n), c);
  }

  lemma WorkGoes(s: State, e: Event)
    requires HubInv(s.hub) && TasksOk(s) && ConnInv(s) && Enabled(s, e)
    requires e.StepListener? || e.Take? || e.StepReceiveAnswer? || e.StepCplt?
    ensures SameGoing(s, Apply(s, e))
  {
    hide HubInv, TasksOk, ConnInv, SameGoing;
    match e
    case StepListener(c, n) => ActorGoes(s, DoStepListener(s, c, n), c);
    case Take(c, n) =>
      TakeSucceeds(s, c, n);
      ActorGoes(s, DoTake(s, c, n), c);
    case StepReceiveAnswer(c, n) => ReceiveAnswerGoes(s, c, n);
    case StepCplt(c, n) =>
      CpltCompletes(s, c, n);
      ActorGoes(s, DoStepCplt(s, c, n), c);
  }

  lemma SyncReplyGoes(s: State, c: Id)
    requires Enabled(s, SyncReply(c))
    ensures SameGoing(s, DoSyncReply(s, c))
  {
    ActorGoes(s, DoSyncReply(s, c), c);
  }

  lemma SideGoes(s: State, e: Event)
    requires DiscoveryInv(s) && Enabled(s, e)
    requires e.Advertise? || e.OpenPeer? || e.PumpPeer? || e.SyncReply? || e.Forward? || e.Teardown? || e.Drop?
    ensures SameGoing(s, Apply(s, e))
  {
    hide HubInv, StreamOk, DiscoveryOk, NodeOk;
    match e
    case Advertise => NewcomerOk(s);
    case OpenPeer(c, order) => ActorGoes(s, DoOpenPeer(s, c, order), c);
    case SyncReply(c) => SyncReplyGoes(s, c);
    case _ => ServerSameConns(s, e);
  }

  lemma GoingOn(s: State, e: Event, s': State, c: Id)
    requires Goes(s, c) && Enabled(s, e) && SameGoing(s, s')
    requires !e.Stop? && !e.Open? && !e.StepPeer? && !e.StepCreateOffer? && !e.StepReceiveOffer?
    ensures StopsExactly(s, e, s', c)
  {
    hide Enabled;
  }

  lemma StepPeerStops(s: State, n: nat, x: Id, c: Id)
    requires Goes(s, c) && Enabled(s, StepPeer(x, n))
    ensures StopsExactly(s, StepPeer(x, n), DoStepPeer(s, x, n), c)
  {
  }

  lemma OpenStops(s: State, side: Side, x: Id, c: Id)
    requires Goes(s, c) && Enabled(s, Open(x, side))
    ensures StopsExactly(s, Open(x, side), DoOpen(s, x, side), c)
  {
  }

  lemma EventStops(s: State, e: Event, c: Id)
    requires DiscoveryInv(s) && ChainInv(s) && ConnInv(s) && Enabled(s, e) && Goes(s, c)
    ensures StopsExactly(s, e, Apply(s, e), c)
  {
    hide ChainsOk, TasksOk, MessagesOk, RecordsOk, ConnInv, HubInv, StopsExactly, Goes;
    match e
    case StepCreateOffer(x, n, offer) => CreateOfferStops(s, n, offer, x, c);
    case StepReceiveOffer(x, n, answer) => ReceiveOfferStops(s, n, answer, x, c);
    case StepPeer(x, n) => StepPeerStops(s, n, x, c);
    case Open(x, side) => OpenStops(s, side, x, c);
    case Stop(x) => StopStops(s, x, c);
    case _ => OthersGoOn(s, e, c);
  }

  lemma StopStops(s: State, x: Id, c: Id)
    requires Goes(s, c) && Enabled(s, Stop(x))
    ensures StopsExactly(s, Stop(x), Halt(s, x), c)
  {
  }

  lemma OthersGoOn(s: State, e: Event, c: Id)
    requires DiscoveryInv(s) && ChainInv(s) && ConnInv(s) && Enabled(s, e) && Goes(s, c)
    requires !e.Stop? && !e.Open? && !e.StepPeer? && !e.StepCreateOffer? && !e.StepReceiveOffer?
    ensures StopsExactly(s, e, Apply(s, e), c)
  {
    hide ChainsOk, TasksOk, MessagesOk, RecordsOk, ConnInv, HubInv, SameGoing, StopsExactly, Goes, Enabled, Apply;
    if ChainEvent(e) {
      WorkGoes(s, e);
    } else {
      SideGoes(s, e);
    }
    GoingOn(s, e, Apply(s, e), c);
  }

  /** What stops a client, in any run: an event stops it if and only if it stops by itself, reads
      the data-loss error, has a signal refused as full, crosses an offer of its own with another,
      or is refused a listener while it starts. No departure, eviction or drop of others does. */
  lemma StopsIff(ss: seq<State>, es: seq<Event>, i: nat, c: Id)
    requires IsRun(ss, es) && i < |es| && Goes(ss[i], c)
    ensures c in ss[i + 1].nodes
    ensures ss[i + 1].nodes[c].phase == Stopped <==> StopsBy(ss[i], es[i], c)
  {
    ChainsAlways(ss, es, i);
    ConnsAlways(ss, es, i);
    EventStops(ss[i], es[i], c);
  }

  /** With serialised starts offers do not cross, so a client in its step loop stops exactly by
      itself, by a lost broadcast, or by a full channel, whoever else comes and goes. */
  lemma StopsSerially(ss: seq<State>, es: seq<Event>, i: nat, c: Id)
    requires IsRun(ss, es) && Serial(ss, es) && i < |es| && c in ss[i].nodes && ss[i].nodes[c].phase == Running
    ensures c in ss[i + 1].nodes
    ensures ss[i + 1].nodes[c].phase == Stopped <==>
      es[i] == Stop(c) || ReadsLoss(ss[i], es[i], c) || RefusedAsFull(ss[i], es[i], c)
  {
    StopsIff(ss, es, i, c);
    SerialAlways(ss, es, i);
    OneSidedNeverCrosses(ss, es, i, c);
    hide IsRun, Serial, SerialInv, OneSided, Crosses;
  }

  /** A client that has stopped stays as it is. */
  lemma {:induction false} StoppedForGood(ss: seq<State>, es: seq<Event>, i: nat, j: nat, c: Id)
    requires IsRun(ss, es) && i <= j < |ss| && c in ss[i].nodes && ss[i].nodes[c].phase == Stopped
    ensures c in ss[j].nodes && ss[j].nodes[c] == ss[i].nodes[c]
    decreases j
  {
    hide *;
    if i < j {
      StoppedForGood(ss, es, i, j - 1, c);
      StoppedJustNow(ss, es, j - 1, c);
    }
  }

  lemma StoppedJustNow(ss: seq<State>, es: seq<Event>, i: nat, c: Id)
    requires IsRun(ss, es) && i + 1 < |ss| && c in ss[i].nodes && ss[i].nodes[c].phase == Stopped
    ensures c in ss[i + 1].nodes && ss[i + 1].nodes[c] == ss[i].nodes[c]
  {
    Convergence.DiscoveryAlways(ss, es, i);
    hide DiscoveryInv;
    Coverage.StoppedStays(ss[i], es[i], c);
  }
}
