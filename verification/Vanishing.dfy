/** Peers that vanish never stop the others: a refused chain ends, and only that chain. */
module Vanishing {
  import opened Vocabulary
  import opened Channels
  import opened Server
  import opened System
  import opened Registry
  import opened Discovery
  import opened Chains
  import opened Causality
  import opened Connections
  import opened Crossing
  import Convergence
  import Client

  /** The target is absent, does not listen, or has disconnected. */
  predicate Vanished(why: Verdict) {
    why in {Absent, NotListening, Gone}
  }

  /** A vanished target reaches the sender as a failed precondition, and leaves the server as it was
      except that a disconnected target is unregistered and its removal broadcast. */
  lemma VanishedIsRefused(h: Hub, side: Side, r: Id, x: Signal)
    ensures Vanished(Judge(h, side, r)) <==> Send(h, side, r, x).1 == Err(FailedPrecondition)
    ensures Vanished(Judge(h, side, r)) ==>
      var h' := Send(h, side, r, x).0;
      if Judge(h, side, r) == Gone then r !in h'.peers && h'.peers == h.peers - {r} && h'.log == h.log + [Remove(r)] && h'.chans == h.chans
      else h' == h
  {
  }

  /** What is left of a signal to a peer that has vanished: the client goes on with one task less,
      the chain has ended, and a disconnected target is unregistered. */
  ghost predicate GoesOn(s: State, s': State, c: Id, n: nat, p: Pair, ended: Chain, r: Id, why: Verdict)
    requires c in s.nodes
  {
    && Active(s', c) && s'.nodes[c].core == Client.Done(s.nodes[c].core, n)
    && s'.chains == s.chains[p := ended]
    && (if why == Gone then r !in s'.hub.peers && s'.hub.log == s.hub.log + [Remove(r)] else s'.hub == s.hub)
  }

  lemma RefusedOfferEnds(s: State, c: Id, n: nat, offer: Payload)
    requires TasksOk(s) && Enabled(s, StepCreateOffer(c, n, offer)) && TaskOf(s, c, n).remote !in s.nodes[c].conns
    requires Vanished(Judge(s.hub, OfferSide, TaskOf(s, c, n).remote))
    ensures var r, why := TaskOf(s, c, n).remote, Judge(s.hub, OfferSide, TaskOf(s, c, n).remote);
      GoesOn(s, DoStepCreateOffer(s, c, n, offer), c, n, Pair(c, r), OfferRefused(why), r, why)
  {
  }

  lemma RefusedAnswerEnds(s: State, c: Id, n: nat, answer: Payload)
    requires TasksOk(s) && Enabled(s, StepReceiveOffer(c, n, answer)) && TaskOf(s, c, n).remote !in s.nodes[c].conns
    requires Vanished(Judge(s.hub, AnswerSide, TaskOf(s, c, n).remote))
    ensures var r, why := TaskOf(s, c, n).remote, Judge(s.hub, AnswerSide, TaskOf(s, c, n).remote);
      GoesOn(s, DoStepReceiveOffer(s, c, n, answer), c, n, Pair(r, c), AnswerRefused(TaskOf(s, c, n).at, why), r, why)
  {
  }

  /** In any run, offering to a peer that has vanished only ends that chain, unless the callback
      fails already because the offer crosses one that was answered. */
  lemma RefusedOffererGoesOn(ss: seq<State>, es: seq<Event>, i: nat)
    requires IsRun(ss, es) && i < |es| && es[i].StepCreateOffer? && !Crosses(ss[i], es[i], es[i].c)
    requires Vanished(Judge(ss[i].hub, OfferSide, TaskOf(ss[i], es[i].c, es[i].n).remote))
    ensures var s, e := ss[i], es[i];
      var r, why := TaskOf(s, e.c, e.n).remote, Judge(s.hub, OfferSide, TaskOf(s, e.c, e.n).remote);
      GoesOn(s, ss[i + 1], e.c, e.n, Pair(e.c, r), OfferRefused(why), r, why)
  {
    ChainsAlways(ss, es, i);
    ConnsAlways(ss, es, i);
    KnownIffCrossing(ss[i], es[i].c, es[i].n);
    hide ConnInv, DiscoveryInv, TasksOk, ChainsOk, MessagesOk, RecordsOk, AnswerMade, Judge, GoesOn;
    RefusedOfferEnds(ss[i], es[i].c, es[i].n, es[i].offer);
  }

  /** In any run, answering a peer that has vanished only ends that chain, unless the callback fails
      already because the answer crosses an offer that was made. */
  lemma RefusedAnswererGoesOn(ss: seq<State>, es: seq<Event>, i: nat)
    requires IsRun(ss, es) && i < |es| && es[i].StepReceiveOffer? && !Crosses(ss[i], es[i], es[i].c)
    requires Vanished(Judge(ss[i].hub, AnswerSide, TaskOf(ss[i], es[i].c, es[i].n).remote))
    ensures var s, e := ss[i], es[i];
      var t, why := TaskOf(s, e.c, e.n), Judge(s.hub, AnswerSide, TaskOf(s, e.c, e.n).remote);
      GoesOn(s, ss[i + 1], e.c, e.n, Pair(t.remote, e.c), AnswerRefused(t.at, why), t.remote, why)
  {
    ChainsAlways(ss, es, i);
    ConnsAlways(ss, es, i);
    KnownIffCrossing(ss[i], es[i].c, es[i].n);
    hide ConnInv, DiscoveryInv, TasksOk, ChainsOk, MessagesOk, RecordsOk, OfferMade, Judge, GoesOn;
    RefusedAnswerEnds(ss[i], es[i].c, es[i].n, es[i].answer);
  }

  predicate Refused(s: State, p: Pair) {
    p in s.chains && (s.chains[p].OfferRefused? || s.chains[p].AnswerRefused?)
  }

  ghost predicate Left(s: State, s': State, p: Pair) {
    p in s.chains && p in s'.chains && s'.chains[p] == s.chains[p]
  }

  lemma StartsLeaveRefused(s: State, s': State, c: Id, n: nat, order: seq<Id>, p: Pair)
    requires ChainInv(s) && Starts(s, s', c, n, order) && Refused(s, p)
    ensures Left(s, s', p)
  {
  }

  lemma StepPeerLeavesRefused(s: State, c: Id, n: nat, p: Pair)
    requires DiscoveryInv(s) && ChainInv(s) && Enabled(s, StepPeer(c, n)) && Refused(s, p)
    ensures Left(s, Apply(s, StepPeer(c, n)), p)
  {
    if s.nodes[c].core.first {
      FirstMessageStarts(s, c, n);
      StartsLeaveRefused(s, DoStepPeer(s, c, n), c, n, s.streams[c].order, p);
    } else {
      LaterMessageSame(s, c, n);
    }
  }

  lemma ListenerLeavesRefused(s: State, c: Id, n: nat, p: Pair)
    requires Enabled(s, StepListener(c, n)) && HubInv(s.hub) && ChainInv(s) && Refused(s, p)
    ensures Left(s, DoStepListener(s, c, n), p)
  {
    var side, i, x := ListenerReads(s, c, n);
    DeliveryLeavesRefused(s, DoStepListener(s, c, n), c, side, i, x, s.nodes[c].core.next + 1, p);
  }

  lemma DeliveryLeavesRefused(s: State, s': State, c: Id, side: Side, i: nat, x: Signal, m: nat, p: Pair)
    requires ChainInv(s) && Refused(s, p) && InChan(s, Key(side, c), i, x) && !WasRead(s, Key(side, c), i)
    requires s'.chains == DeliveredChains(s.chains, c, side, i, x, m)
    ensures Left(s, s', p)
  {
  }

  lemma TaskLeavesRefused(s: State, e: Event, p: Pair)
    requires TasksOk(s) && Enabled(s, e) && Refused(s, p)
    requires e.StepCreateOffer? || e.StepReceiveOffer? || e.StepReceiveAnswer? || e.StepCplt?
    ensures Left(s, Apply(s, e), p)
  {
  }

  lemma RefusedStays(s: State, e: Event, p: Pair)
    requires DiscoveryInv(s) && ChainInv(s) && Enabled(s, e) && Refused(s, p)
    ensures Left(s, Apply(s, e), p)
  {
    if Idle(e) {
      IdleSame(s, e);
    } else if e.StepPeer? {
      StepPeerLeavesRefused(s, e.c, e.n, p);
    } else if e.StepListener? {
      ListenerLeavesRefused(s, e.c, e.n, p);
    } else {
      TaskLeavesRefused(s, e, p);
    }
  }

  lemma {:induction false} RefusedForGood(ss: seq<State>, es: seq<Event>, i: nat, j: nat, p: Pair)
    requires IsRun(ss, es) && i <= j < |ss| && Refused(ss[i], p)
    ensures p in ss[j].chains && ss[j].chains[p] == ss[i].chains[p]
    decreases j
  {
    hide Enabled, Apply, DiscoveryInv, ChainInv;
    if i < j {
      RefusedForGood(ss, es, i, j - 1, p);
      ChainsAlways(ss, es, j - 1);
      RefusedStays(ss[j - 1], es[j - 1], p);
    }
  }

  /** A refused chain never completes, on either side. */
  lemma RefusedNeverCompletes(ss: seq<State>, es: seq<Event>, i: nat, j: nat, p: Pair)
    requires IsRun(ss, es) && i <= j < |ss| && Refused(ss[i], p)
    ensures p.offerer in ss[j].nodes && p.answerer in ss[j].nodes
    ensures ss[j].nodes[p.offerer].localDone[p.answerer] == 0
    ensures ss[j].nodes[p.answerer].remoteDone[p.offerer] == 0
  {
    RefusedForGood(ss, es, i, j, p);
    ChainsAlways(ss, es, j);
    DoneAlways(ss, es, j);
    assert ChainOk(ss[j], p);
    assert DoneAt(ss[j], p.offerer, p.answerer) && DoneAt(ss[j], p.answerer, p.offerer);
  }
}
