/** Exactly when the example peer's connection map errs: two peers make offers to each other. */
module Crossing {
  import opened Vocabulary
  import opened Channels
  import opened Broadcast
  import opened Server
  import opened System
  import opened Registry
  import opened Discovery
  import opened Chains
  import opened Causality
  import opened Connections
  import Convergence
  import Client
  import ConnectionMap

  /** At this event client `c` inserts a connection with a peer although it already made an answer to
      that peer's offer, or an offer for that peer. */
  ghost predicate Crosses(s: State, e: Event, c: Id)
    requires Enabled(s, e)
  {
    || (e.StepCreateOffer? && e.c == c && AnswerMade(s, Pair(TaskOf(s, c, e.n).remote, c)))
    || (e.StepReceiveOffer? && e.c == c && OfferMade(s, Pair(c, TaskOf(s, c, e.n).remote)))
  }

  /** No map fails at this event. */
  ghost predicate SameErrors(s: State, s': State) {
    forall c :: c in s.nodes ==> c in s'.nodes && s'.nodes[c].mapErr == s.nodes[c].mapErr
  }

  lemma ActorSameErrors(s: State, s': State, c: Id)
    requires c in s.nodes && c in s'.nodes && s'.nodes == s.nodes[c := s'.nodes[c]] && s'.nodes[c].mapErr == s.nodes[c].mapErr
    ensures SameErrors(s, s')
  {
  }

  lemma SideErrors(s: State, e: Event)
    requires DiscoveryInv(s) && Enabled(s, e) && Idle(e) && !e.Take?
    ensures SameErrors(s, Apply(s, e))
  {
    hide HubInv, StreamOk, DiscoveryOk, NodeOk;
    if e.Advertise? {
      AdvertiseSameConns(s);
    } else if e.OpenPeer? || e.Open? || e.SyncReply? || e.Stop? {
      ClientSameConns(s, e);
    } else {
      ServerSameConns(s, e);
    }
  }

  lemma StepErrors(s: State, e: Event)
    requires HubInv(s.hub) && TasksOk(s) && ConnInv(s) && Enabled(s, e)
    requires e.StepPeer? || e.StepListener? || e.Take? || e.StepReceiveAnswer? || e.StepCplt?
    ensures SameErrors(s, Apply(s, e))
  {
    hide HubInv, TasksOk, ConnInv, SameErrors;
    match e
    case StepPeer(c, n) =>
      PeerEventConns(s.nodes[c], s.hub, n, s.streams[c].wire[0]);
      ActorSameErrors(s, DoStepPeer(s, c, n), c);
    case StepListener(c, n) => ListenerErrors(s, c, n);
    case Take(c, n) =>
      TakeSucceeds(s, c, n);
      ActorSameErrors(s, DoTake(s, c, n), c);
    case StepReceiveAnswer(c, n) => ReceiveAnswerErrors(s, c, n);
    case StepCplt(c, n) =>
      CpltCompletes(s, c, n);
      ActorSameErrors(s, DoStepCplt(s, c, n), c);
  }

  lemma ListenerErrors(s: State, c: Id, n: nat)
    requires HubInv(s.hub) && Enabled(s, StepListener(c, n))
    ensures SameErrors(s, DoStepListener(s, c, n))
  {
    hide HubInv;
    var side, i, x := ListenerReads(s, c, n);
    ActorSameErrors(s, DoStepListener(s, c, n), c);
  }

  lemma ReceiveAnswerErrors(s: State, c: Id, n: nat)
    requires TasksOk(s) && ConnInv(s) && Enabled(s, StepReceiveAnswer(c, n))
    ensures SameErrors(s, DoStepReceiveAnswer(s, c, n))
  {
    PlaceSucceeds(s, c, n);
    ReceiveAnswerCompletes(s, c, n);
    hide TasksOk, ConnInv;
    ActorSameErrors(s, DoStepReceiveAnswer(s, c, n), c);
  }

  /** The map of `c` has failed after the event iff it had before or the event is a crossing insert. */
  ghost predicate ErrsIff(s: State, e: Event, s': State, c: Id)
    requires Enabled(s, e)
  {
    c in s.nodes ==> c in s'.nodes && (s'.nodes[c].mapErr <==> s.nodes[c].mapErr || Crosses(s, e, c))
  }

  lemma CreateOfferErrs(s: State, n: nat, offer: Payload, x: Id, c: Id)
    requires TasksOk(s) && ConnInv(s) && Enabled(s, StepCreateOffer(x, n, offer))
    ensures ErrsIff(s, StepCreateOffer(x, n, offer), DoStepCreateOffer(s, x, n, offer), c)
  {
    KnownIffCrossing(s, x, n);
    CreateOfferWorks(s, x, n, offer);
    hide TasksOk, ConnInv, AnswerMade;
  }

  lemma ReceiveOfferErrs(s: State, n: nat, answer: Payload, x: Id, c: Id)
    requires TasksOk(s) && ConnInv(s) && Enabled(s, StepReceiveOffer(x, n, answer))
    ensures ErrsIff(s, StepReceiveOffer(x, n, answer), DoStepReceiveOffer(s, x, n, answer), c)
  {
    KnownIffCrossing(s, x, n);
    ReceiveOfferWorks(s, x, n, answer);
    hide TasksOk, ConnInv, OfferMade;
  }

  lemma SameErrorsErr(s: State, e: Event, s': State, c: Id)
    requires Enabled(s, e) && SameErrors(s, s') && !e.StepCreateOffer? && !e.StepReceiveOffer?
    ensures ErrsIff(s, e, s', c)
  {
    hide Enabled;
  }

  lemma OtherErrs(s: State, e: Event, c: Id)
    requires DiscoveryInv(s) && ChainInv(s) && ConnInv(s) && Enabled(s, e) && !e.StepCreateOffer? && !e.StepReceiveOffer?
    ensures ErrsIff(s, e, Apply(s, e), c)
  {
    hide ChainsOk, TasksOk, MessagesOk, RecordsOk, ConnInv, HubInv, SameErrors, ErrsIff, Enabled, Apply;
    if Idle(e) && !e.Take? {
      SideErrors(s, e);
    } else {
      StepErrors(s, e);
    }
    SameErrorsErr(s, e, Apply(s, e), c);
  }

  lemma EventErrs(s: State, e: Event, c: Id)
    requires DiscoveryInv(s) && ChainInv(s) && ConnInv(s) && Enabled(s, e)
    ensures ErrsIff(s, e, Apply(s, e), c)
  {
    hide ChainsOk, TasksOk, MessagesOk, RecordsOk, ConnInv, DiscoveryInv, ErrsIff;
    match e
    case StepCreateOffer(x, n, offer) => CreateOfferErrs(s, n, offer, x, c);
    case StepReceiveOffer(x, n, answer) => ReceiveOfferErrs(s, n, answer, x, c);
    case _ => OtherErrs(s, e, c);
  }

  /** The map errs exactly at a crossing insert: in any run, overlapping starts and failures included,
      an event makes a client's map fail if and only if a callback of that client then inserts a
      connection for a peer with which an offer and an answer cross. */
  lemma MapErrsIffCrossing(ss: seq<State>, es: seq<Event>, i: nat, c: Id)
    requires IsRun(ss, es) && i < |es| && c in ss[i].nodes
    ensures c in ss[i + 1].nodes
    ensures ss[i + 1].nodes[c].mapErr <==> ss[i].nodes[c].mapErr || Crosses(ss[i], es[i], c)
  {
    ChainsAlways(ss, es, i);
    ConnsAlways(ss, es, i);
    EventErrs(ss[i], es[i], c);
  }

  /** In any run, every take and every place that a callback is about to make succeeds. */
  lemma TakesAndPlacesSucceed(ss: seq<State>, es: seq<Event>, i: nat, c: Id, n: nat)
    requires IsRun(ss, es) && i < |ss|
    ensures Enabled(ss[i], Take(c, n)) ==> ConnectionMap.Take(ss[i].nodes[c].conns, TaskOf(ss[i], c, n).remote).1.Some?
    ensures Enabled(ss[i], StepReceiveAnswer(c, n)) ==>
      ConnectionMap.Place(ss[i].nodes[c].conns, TaskOf(ss[i], c, n).remote, ss[i].nodes[c].held[n]).1
  {
    ChainsAlways(ss, es, i);
    ConnsAlways(ss, es, i);
    if Enabled(ss[i], Take(c, n)) {
      TakeSucceeds(ss[i], c, n);
    }
    if Enabled(ss[i], StepReceiveAnswer(c, n)) {
      PlaceSucceeds(ss[i], c, n);
    }
  }

  lemma FailedJustNow(ss: seq<State>, es: seq<Event>, i: nat, c: Id)
    requires IsRun(ss, es) && i < |ss| && c in ss[i].nodes && ss[i].nodes[c].mapErr
    ensures i > 0
    ensures (c in ss[i - 1].nodes && ss[i - 1].nodes[c].mapErr) || Crosses(ss[i - 1], es[i - 1], c)
  {
    hide Apply, Enabled, DiscoveryInv, ChainInv, Crosses;
    if c in ss[i - 1].nodes {
      MapErrsIffCrossing(ss, es, i - 1, c);
    } else {
      ChainsAlways(ss, es, i - 1);
      NewcomersFine(ss[i - 1], es[i - 1], c);
    }
  }

  lemma NewcomersFine(s: State, e: Event, c: Id)
    requires DiscoveryInv(s) && Enabled(s, e) && c !in s.nodes && c in Apply(s, e).nodes
    ensures !Apply(s, e).nodes[c].mapErr
  {
    hide StreamOk, DiscoveryOk, NodeOk;
    if e.Advertise? {
      NewcomerOk(s);
    } else if ChainEvent(e) {
      ChainEventUndisturbed(s, e);
    } else if ActorOf(e).None? {
      EventsOnTheSide(s, e);
    } else {
      EnabledActor(s, e);
    }
  }

  /** A map that has failed did so at an earlier crossing insert. */
  lemma {:induction false} FailedByCrossing(ss: seq<State>, es: seq<Event>, i: nat, c: Id) returns (k: nat)
    requires IsRun(ss, es) && i < |ss| && c in ss[i].nodes && ss[i].nodes[c].mapErr
    ensures k < i && Crosses(ss[k], es[k], c)
  {
    hide *;
    FailedJustNow(ss, es, i, c);
    if c in ss[i - 1].nodes && ss[i - 1].nodes[c].mapErr {
      k := FailedByCrossing(ss, es, i - 1, c);
    } else {
      k := i - 1;
    }
  }

  /** The connection map never errs: as long as no two initial lists have contained each other, no
      insert, take or place of any callback has failed, and the next one will not fail either. */
  lemma MapNeverErrs(ss: seq<State>, es: seq<Event>, i: nat, c: Id, n: nat)
    requires IsRun(ss, es) && i < |ss| && forall k :: 0 <= k <= i ==> OneSided(ss[k])
    ensures forall x :: x in ss[i].nodes ==> !ss[i].nodes[x].mapErr
    ensures Enabled(ss[i], Take(c, n)) ==> ConnectionMap.Take(ss[i].nodes[c].conns, TaskOf(ss[i], c, n).remote).1.Some?
    ensures Has(ss[i], c, n) ==>
      var t, conns := TaskOf(ss[i], c, n), ss[i].nodes[c].conns;
      && (t.CreateOffer? || t.ReceiveOffer? ==> t.remote !in conns)
      && (t.ReceiveAnswer? && n in ss[i].nodes[c].held ==> ConnectionMap.Place(conns, t.remote, ss[i].nodes[c].held[n]).1)
  {
    forall x | x in ss[i].nodes ensures !ss[i].nodes[x].mapErr {
      if ss[i].nodes[x].mapErr {
        var k := FailedByCrossing(ss, es, i, x);
        OneSidedNeverCrosses(ss, es, k, x);
      }
    }
    ChainsAlways(ss, es, i);
    ConnsAlways(ss, es, i);
    TakesAndPlacesSucceed(ss, es, i, c, n);
    if Has(ss[i], c, n) {
      InsertsAndPlacesSucceed(ss[i], c, n);
    }
  }

  lemma OneSidedNeverCrosses(ss: seq<State>, es: seq<Event>, k: nat, c: Id)
    requires IsRun(ss, es) && k < |es| && OneSided(ss[k])
    ensures !Crosses(ss[k], es[k], c)
  {
    ChainsAlways(ss, es, k);
    CrossingHasBoth(ss[k], es[k], c);
  }

  /** A crossing insert takes chains in both directions. */
  lemma CrossingHasBoth(s: State, e: Event, c: Id)
    requires ChainInv(s) && OneSided(s) && Enabled(s, e)
    ensures !Crosses(s, e, c)
  {
    hide ChainsOk, TasksOk, MessagesOk, RecordsOk, OneSided;
    if (e.StepCreateOffer? || e.StepReceiveOffer?) && e.c == c {
      var t := TaskOf(s, c, e.n);
      TaskFact(s, c, e.n, t);
      NoOppositeChains(s, if e.StepCreateOffer? then Pair(c, t.remote) else Pair(t.remote, c));
    }
  }

  /** With serialised starts the connection map never errs, whatever else happens. */
  lemma MapNeverErrsSerially(ss: seq<State>, es: seq<Event>, i: nat)
    requires IsRun(ss, es) && Serial(ss, es) && i < |ss|
    ensures forall c :: c in ss[i].nodes ==> !ss[i].nodes[c].mapErr
  {
    forall k | 0 <= k <= i ensures OneSided(ss[k]) {
      SerialAlways(ss, es, k);
    }
    MapNeverErrs(ss, es, i, 0, 0);
  }
}
