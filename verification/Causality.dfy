/** Signals are neither lost nor duplicated nor crossed: conservation and causal order. */
module Causality {
  import opened Vocabulary
  import opened Channels
  import opened Server
  import opened System
  import opened Discovery
  import opened Chains
  import opened Registry
  import Convergence
  import Client
  import ConnectionMap

  lemma {:induction false} ChainsAlways(ss: seq<State>, es: seq<Event>, i: nat)
    requires IsRun(ss, es) && i < |ss|
    ensures DiscoveryInv(ss[i]) && ChainInv(ss[i])
  {
    hide Enabled, Apply;
    Convergence.DiscoveryAlways(ss, es, i);
    if i > 0 {
      ChainsAlways(ss, es, i - 1);
      ChainsKept(ss[i - 1], es[i - 1]);
    }
  }

  /** The `j`-th message of `r`'s offer channel is the offer that `a` made for `r`; `r` has read it
      and made `answer` to it. */
  ghost predicate Caused(s: State, a: Id, r: Id, answer: Payload, j: nat) {
    && a in s.nodes && r in s.nodes && r in s.nodes[a].made
    && InChan(s, Key(OfferSide, r), j, Signal(a, s.nodes[a].made[r])) && WasRead(s, Key(OfferSide, r), j)
    && j in s.nodes[r].replies && s.nodes[r].replies[j] == answer
  }

  lemma AnswerCause(s: State, a: Id, n: nat, r: Id, answer: Payload, k: nat)
    requires ChainInv(s) && HasTask(s, a, n, Client.ReceiveAnswer(r, answer, k))
    ensures Pair(a, r) in s.chains && s.chains[Pair(a, r)].Answered? && Caused(s, a, r, answer, s.chains[Pair(a, r)].j)
    ensures InChan(s, Key(AnswerSide, a), k, Signal(r, answer)) && WasRead(s, Key(AnswerSide, a), k)
  {
  }

  /** Causal order and no cross-wiring. While `a` applies an answer from `r`, an offer that `a`
      made for `r` was accepted by `r`'s channel and read by `r`, the answer is the one that `r`
      made to that very offer, and it was accepted by `a`'s channel and read by `a`. */
  lemma AnswersAreCaused(ss: seq<State>, es: seq<Event>, i: nat, a: Id, n: nat, r: Id, answer: Payload, k: nat)
    requires IsRun(ss, es) && i < |ss| && HasTask(ss[i], a, n, Client.ReceiveAnswer(r, answer, k))
    ensures exists j: nat :: Caused(ss[i], a, r, answer, j)
    ensures InChan(ss[i], Key(AnswerSide, a), k, Signal(r, answer)) && WasRead(ss[i], Key(AnswerSide, a), k)
  {
    ChainsAlways(ss, es, i);
    AnswerCause(ss[i], a, n, r, answer, k);
  }

  /** A peer answers only offers that reached it, with the payload that the offerer made for it. */
  lemma OffersAreCaused(ss: seq<State>, es: seq<Event>, i: nat, r: Id, n: nat, a: Id, offer: Payload, j: nat)
    requires IsRun(ss, es) && i < |ss| && HasTask(ss[i], r, n, Client.ReceiveOffer(a, offer, j))
    ensures var s := ss[i];
      a in s.nodes && r in s.nodes[a].made && s.nodes[a].made[r] == offer
      && InChan(s, Key(OfferSide, r), j, Signal(a, offer)) && WasRead(s, Key(OfferSide, r), j)
      && j !in s.nodes[r].replies
  {
    ChainsAlways(ss, es, i);
    AnsweringHasLittle(ss[i], r, n, a, offer, j);
    assert ChainOk(ss[i], Pair(a, r));
  }

  /** The places of the signals from `sender` in a channel. */
  function From(s: State, key: Key, sender: Id): set<nat> {
    if key !in s.hub.chans then {}
    else
      var log := s.hub.chans[key].log;
      set i: nat | 1 <= i < |log| && log[i].Some? && log[i].value.sender == sender
  }

  function Unread(s: State, key: Key, sender: Id): set<nat> {
    set i | i in From(s, key, sender) && key in s.hub.chans && i >= s.hub.chans[key].read
  }

  function Tasks(s: State, c: Id): map<nat, Client.Task> {
    if c in s.nodes then s.nodes[c].core.tasks else map[]
  }

  /** Offers from `a` that `b` is turning into answers. */
  function BeingAnswered(s: State, a: Id, b: Id): set<nat> {
    set n | n in Tasks(s, b) && Tasks(s, b)[n].ReceiveOffer? && Tasks(s, b)[n].remote == a
  }

  /** Offers from `a` to which `b` has made an answer. */
  function AnswerAttempts(s: State, a: Id, b: Id): set<nat> {
    set j | j in From(s, Key(OfferSide, b), a) && b in s.nodes && j in s.nodes[b].replies
  }

  /** Conservation of offers: every offer from `a` accepted for `b` is still unread, or being
      answered, or has been turned into an answer attempt, and never two of these. (When `b`
      stopped, the first two kinds are the offers that are lost.) */
  lemma OffersAreConserved(ss: seq<State>, es: seq<Event>, i: nat, a: Id, b: Id)
    requires IsRun(ss, es) && i < |ss|
    ensures var s := ss[i];
      |From(s, Key(OfferSide, b), a)| ==
        |Unread(s, Key(OfferSide, b), a)| + |BeingAnswered(s, a, b)| + |AnswerAttempts(s, a, b)| <= 1
  {
    ChainsAlways(ss, es, i);
    OfferCounts(ss[i], a, b);
  }

  function Stage(s: State, p: Pair): Option<Chain> {
    if p in s.chains then Some(s.chains[p]) else None
  }

  /** What the messages, tasks and records of a pair say about its chain. */
  lemma OfferPlaces(s: State, a: Id, b: Id)
    requires ChainInv(s)
    ensures var key, p := Key(OfferSide, b), Pair(a, b);
      && (forall i :: i in From(s, key, a) ==> p in s.chains && HasOffer(s.chains[p], i))
      && (forall n :: n in BeingAnswered(s, a, b) ==> p in s.chains && s.chains[p].Answering? && s.chains[p].n == n)
      && (forall j :: j in AnswerAttempts(s, a, b) ==> p in s.chains && Replied(s.chains[p], j))
  {
  }

  /** What a chain says about its pair's messages, tasks and records. */
  lemma OfferStagePlaces(s: State, a: Id, b: Id)
    requires Pair(a, b) in s.chains && ChainOk(s, Pair(a, b))
    ensures var key, p := Key(OfferSide, b), Pair(a, b);
      && (forall j :: HasOffer(s.chains[p], j) ==> j in From(s, key, a) && (j in Unread(s, key, a) <==> s.chains[p].OfferSent?))
      && (forall j :: Replied(s.chains[p], j) ==> j in AnswerAttempts(s, a, b))
      && (s.chains[p].Answering? ==> s.chains[p].n in BeingAnswered(s, a, b))
  {
  }

  /** The chain of a pair decides where its only offer is. */
  lemma OfferCounts(s: State, a: Id, b: Id)
    requires ChainInv(s)
    ensures |From(s, Key(OfferSide, b), a)| ==
      |Unread(s, Key(OfferSide, b), a)| + |BeingAnswered(s, a, b)| + |AnswerAttempts(s, a, b)| <= 1
  {
    var key, p := Key(OfferSide, b), Pair(a, b);
    OfferPlaces(s, a, b);
    if p in s.chains {
      assert ChainOk(s, p);
      OfferStagePlaces(s, a, b);
    }
    var chain := Stage(s, p);
    Count(From(s, key, a), if chain.Some? && !chain.value.Creating? && !chain.value.OfferRefused? then Some(chain.value.j) else None);
    Count(Unread(s, key, a), if chain.Some? && chain.value.OfferSent? then Some(chain.value.j) else None);
    Count(BeingAnswered(s, a, b), if chain.Some? && chain.value.Answering? then Some(chain.value.n) else None);
    Count(AnswerAttempts(s, a, b),
      if chain.Some? && (chain.value.AnswerRefused? || chain.value.Answered?) then Some(chain.value.j) else None);
  }

  /** A set with at most one possible element. */
  lemma Count(xs: set<nat>, only: Option<nat>)
    requires forall x :: x in xs <==> only == Some(x)
    ensures |xs| == if only.Some? then 1 else 0
  {
    assert xs == if only.Some? then {only.value} else {};
  }

  predicate LocallyDone(s: State, p: Pair) {
    p in s.chains && s.chains[p].Answered? && s.chains[p].loc.LocalDone?
  }

  predicate RemotelyDone(s: State, p: Pair) {
    p in s.chains && s.chains[p].Answered? && s.chains[p].rem.RemoteDone?
  }

  /** Completions are counted once per chain. */
  ghost predicate DoneInv(s: State) {
    forall c, r :: c in s.nodes ==> DoneAt(s, c, r)
  }

  ghost predicate DoneAt(s: State, c: Id, r: Id)
    requires c in s.nodes
  {
    && s.nodes[c].localDone[r] == (if LocallyDone(s, Pair(c, r)) then 1 else 0)
    && s.nodes[c].remoteDone[r] == (if RemotelyDone(s, Pair(r, c)) then 1 else 0)
  }

  /** No chain completes on either side. */
  ghost predicate NothingDone(s: State, s': State) {
    && (forall c :: c in s.nodes ==>
         (c in s'.nodes && s'.nodes[c].localDone == s.nodes[c].localDone && s'.nodes[c].remoteDone == s.nodes[c].remoteDone))
    && (forall c :: c in s'.nodes && c !in s.nodes ==> s'.nodes[c].localDone == s'.nodes[c].remoteDone == multiset{})
    && (forall p :: (LocallyDone(s', p) <==> LocallyDone(s, p)) && (RemotelyDone(s', p) <==> RemotelyDone(s, p)))
  }

  lemma NothingDoneKept(s: State, s': State)
    requires ChainInv(s) && DoneInv(s) && NothingDone(s, s')
    ensures DoneInv(s')
  {
    forall c, r | c in s'.nodes ensures DoneAt(s', c, r) {
      if c in s.nodes {
        assert DoneAt(s, c, r);
      } else {
        PairFact(s, Pair(c, r));
        PairFact(s, Pair(r, c));
      }
    }
  }

  lemma SameChainsDoNothing(s: State, s': State)
    requires SameChains(s, s')
    ensures NothingDone(s, s')
  {
  }

  lemma StartsDoNothing(s: State, s': State, c: Id, n: nat, order: seq<Id>)
    requires ChainInv(s) && Starts(s, s', c, n, order)
    ensures NothingDone(s, s')
  {
    forall t ensures Pair(c, t) !in s.chains {
      NoChainsYet(s, c, t);
    }
  }

  /** A signal that is read was waiting, and a task that completes was pending: so says the stage. */
  lemma StageBeforeDelivery(s: State, c: Id, side: Side, i: nat, x: Signal)
    requires ChainInv(s) && InChan(s, Key(side, c), i, x) && !WasRead(s, Key(side, c), i)
    ensures var p := SignalPair(Key(side, c), x);
      p in s.chains && if side == OfferSide then s.chains[p] == OfferSent(i)
                       else s.chains[p].Answered? && s.chains[p].k == i && s.chains[p].loc.Unread?
  {
  }

  lemma DeliversDoNothing(s: State, s': State, c: Id, n: nat, side: Side, i: nat, x: Signal)
    requires Delivers(s, s', c, n, side, i, x)
    requires var p := SignalPair(Key(side, c), x);
      p in s.chains && if side == OfferSide then s.chains[p] == OfferSent(i) else s.chains[p].Answered? && s.chains[p].loc.Unread?
    requires s'.chains == DeliveredChains(s.chains, c, side, i, x, s.nodes[c].core.next + 1)
    ensures NothingDone(s, s')
  {
  }

  lemma OffersDoNothing(s: State, s': State, c: Id, n: nat, r: Id, offer: Payload)
    requires Pair(c, r) in s.chains && s.chains[Pair(c, r)].Creating? && Offers(s, s', c, n, r, offer)
    ensures NothingDone(s, s')
  {
  }

  lemma AnswersDoNothing(s: State, s': State, c: Id, n: nat, r: Id, j: nat, answer: Payload)
    requires Pair(r, c) in s.chains && s.chains[Pair(r, c)].Answering? && Answers(s, s', c, n, r, j, answer)
    ensures NothingDone(s, s')
  {
  }

  lemma CompletesCountsAt(s: State, s': State, c: Id, n: nat, p: Pair, x: Id, r: Id)
    requires x in s.nodes && DoneAt(s, x, r) && Completes(s, s', c, n, p)
    requires if s.nodes[c].core.tasks[n].RemoteCplt? then !s.chains[p].rem.RemoteDone? else !s.chains[p].loc.LocalDone?
    ensures DoneAt(s', x, r)
  {
  }

  /** Completing a chain counts once, and only for that chain and that side. */
  lemma CompletesCounts(s: State, s': State, c: Id, n: nat, p: Pair)
    requires DoneInv(s) && Completes(s, s', c, n, p)
    requires if s.nodes[c].core.tasks[n].RemoteCplt? then !s.chains[p].rem.RemoteDone? else !s.chains[p].loc.LocalDone?
    ensures DoneInv(s')
  {
    forall x, r | x in s'.nodes ensures DoneAt(s', x, r) {
      CompletesCountsAt(s, s', c, n, p, x, r);
    }
  }

  lemma CreateOfferKeepsDone(s: State, c: Id, n: nat, offer: Payload)
    requires ChainInv(s) && DoneInv(s) && Enabled(s, StepCreateOffer(c, n, offer))
    ensures DoneInv(DoStepCreateOffer(s, c, n, offer))
  {
    var s', r := DoStepCreateOffer(s, c, n, offer), TaskOf(s, c, n).remote;
    CreateOfferWorks(s, c, n, offer);
    if r in s.nodes[c].conns {
      MapErrorSame(s, c, ConnectionMap.Insert(s.nodes[c].conns, r, LocalConn(r)).0);
      SameChainsDoNothing(s, s');
    } else {
      assert TaskOk(s, c, n, TaskOf(s, c, n));
      OffersDoNothing(s, s', c, n, r, offer);
    }
    NothingDoneKept(s, s');
  }

  lemma ReceiveOfferKeepsDone(s: State, c: Id, n: nat, answer: Payload)
    requires ChainInv(s) && DoneInv(s) && Enabled(s, StepReceiveOffer(c, n, answer))
    ensures DoneInv(DoStepReceiveOffer(s, c, n, answer))
  {
    var s', r := DoStepReceiveOffer(s, c, n, answer), TaskOf(s, c, n).remote;
    ReceiveOfferWorks(s, c, n, answer);
    if r in s.nodes[c].conns {
      MapErrorSame(s, c, ConnectionMap.Insert(s.nodes[c].conns, r, RemoteConn(r)).0);
      SameChainsDoNothing(s, s');
    } else {
      assert TaskOk(s, c, n, TaskOf(s, c, n));
      AnswersDoNothing(s, s', c, n, r, TaskOf(s, c, n).at, answer);
    }
    NothingDoneKept(s, s');
  }

  lemma CompletionsKeepDone(s: State, e: Event)
    requires ChainInv(s) && DoneInv(s) && Enabled(s, e) && (e.StepReceiveAnswer? || e.StepCplt?)
    ensures DoneInv(Apply(s, e))
  {
    match e
    case StepReceiveAnswer(c, n) =>
      ReceiveAnswerCompletes(s, c, n);
      var r := TaskOf(s, c, n).remote;
      if ConnectionMap.Place(s.nodes[c].conns, r, s.nodes[c].held[n]).1 {
        assert TaskOk(s, c, n, TaskOf(s, c, n));
        CompletesCounts(s, Apply(s, e), c, n, Pair(c, r));
      } else {
        MapErrorSame(s, c, ConnectionMap.Place(s.nodes[c].conns, r, s.nodes[c].held[n]).0);
        SameChainsDoNothing(s, Apply(s, e));
        NothingDoneKept(s, Apply(s, e));
      }
    case StepCplt(c, n) =>
      CpltCompletes(s, c, n);
      assert TaskOk(s, c, n, TaskOf(s, c, n));
      CompletesCounts(s, Apply(s, e), c, n, TaskPair(c, TaskOf(s, c, n)));
  }

  lemma StepPeerKeepsDone(s: State, c: Id, n: nat)
    requires ChainInv(s) && DiscoveryInv(s) && DoneInv(s) && Enabled(s, StepPeer(c, n))
    ensures DoneInv(DoStepPeer(s, c, n))
  {
    if s.nodes[c].core.first {
      FirstMessageStarts(s, c, n);
      StartsDoNothing(s, DoStepPeer(s, c, n), c, n, s.streams[c].order);
    } else {
      LaterMessageSame(s, c, n);
      SameChainsDoNothing(s, DoStepPeer(s, c, n));
    }
    NothingDoneKept(s, DoStepPeer(s, c, n));
  }

  lemma ListenerKeepsDone(s: State, c: Id, n: nat)
    requires ChainInv(s) && HubInv(s.hub) && DoneInv(s) && Enabled(s, StepListener(c, n))
    ensures DoneInv(DoStepListener(s, c, n))
  {
    assert TasksBelow(s.nodes[c]);
    var side, i, x := ListenerDelivers(s, c, n);
    StageBeforeDelivery(s, c, side, i, x);
    DeliversDoNothing(s, DoStepListener(s, c, n), c, n, side, i, x);
    NothingDoneKept(s, DoStepListener(s, c, n));
  }

  lemma IdleKeepsDone(s: State, e: Event)
    requires ChainInv(s) && DiscoveryInv(s) && DoneInv(s) && Enabled(s, e) && Idle(e)
    ensures DoneInv(Apply(s, e))
  {
    hide ChainInv, DiscoveryInv, DoneInv, NothingDone, SameChains, Idle;
    IdleSame(s, e);
    SameChainsDoNothing(s, Apply(s, e));
    NothingDoneKept(s, Apply(s, e));
  }

  lemma DoneKept(s: State, e: Event)
    requires ChainInv(s) && DiscoveryInv(s) && DoneInv(s) && Enabled(s, e)
    ensures DoneInv(Apply(s, e))
  {
    hide ChainsOk, TasksOk, MessagesOk, RecordsOk, DoneInv, NothingDone, HubInv;
    match e
    case StepPeer(c, n) => StepPeerKeepsDone(s, c, n);
    case StepListener(c, n) => ListenerKeepsDone(s, c, n);
    case StepCreateOffer(c, n, offer) => CreateOfferKeepsDone(s, c, n, offer);
    case StepReceiveOffer(c, n, answer) => ReceiveOfferKeepsDone(s, c, n, answer);
    case StepReceiveAnswer(_, _) => CompletionsKeepDone(s, e);
    case StepCplt(_, _) => CompletionsKeepDone(s, e);
    case _ => IdleKeepsDone(s, e);
  }

  lemma {:induction false} DoneAlways(ss: seq<State>, es: seq<Event>, i: nat)
    requires IsRun(ss, es) && i < |ss|
    ensures DoneInv(ss[i])
  {
    hide Enabled, Apply, DiscoveryInv, ChainInv;
    if i > 0 {
      ChainsAlways(ss, es, i - 1);
      DoneAlways(ss, es, i - 1);
      DoneKept(ss[i - 1], es[i - 1]);
    }
  }

  /** Answers from `b` that `a` is applying, and chains towards `b` that `a` is completing. */
  function BeingApplied(s: State, a: Id, b: Id): set<nat> {
    set n | n in Tasks(s, a) && Tasks(s, a)[n].ReceiveAnswer? && Tasks(s, a)[n].remote == b
  }

  function BeingCompleted(s: State, a: Id, b: Id): set<nat> {
    set n | n in Tasks(s, a) && Tasks(s, a)[n].LocalCplt? && Tasks(s, a)[n].remote == b
  }

  /** Conservation of answers, through to local completion: every answer from `b` accepted for `a`
      is still unread, being applied, being completed, or completed; and there are never more of
      them than answer attempts, nor more of those than accepted offers. */
  lemma AnswersAreConserved(ss: seq<State>, es: seq<Event>, i: nat, a: Id, b: Id)
    requires IsRun(ss, es) && i < |ss| && a in ss[i].nodes && b in ss[i].nodes
    ensures var s := ss[i];
      && |From(s, Key(AnswerSide, a), b)| ==
           |Unread(s, Key(AnswerSide, a), b)| + |BeingApplied(s, a, b)| + |BeingCompleted(s, a, b)| + s.nodes[a].localDone[b]
      && s.nodes[a].localDone[b] <= |From(s, Key(AnswerSide, a), b)| <= |AnswerAttempts(s, a, b)|
           <= |From(s, Key(OfferSide, b), a)| <= 1
      && s.nodes[b].remoteDone[a] <= |From(s, Key(AnswerSide, a), b)|
  {
    ChainsAlways(ss, es, i);
    DoneAlways(ss, es, i);
    assert DoneAt(ss[i], a, b) && DoneAt(ss[i], b, a);
    OfferCounts(ss[i], a, b);
    AnswerCounts(ss[i], a, b);
  }

  /** What the messages and tasks of a pair say about its answered chain. */
  lemma AnswerPlaces(s: State, a: Id, b: Id)
    requires ChainInv(s)
    ensures var key, p := Key(AnswerSide, a), Pair(a, b);
      && (forall i :: i in From(s, key, b) ==> p in s.chains && s.chains[p].Answered? && s.chains[p].k == i)
      && (forall n :: n in BeingApplied(s, a, b) ==> p in s.chains && s.chains[p].Answered? && s.chains[p].loc == Applying(n))
      && (forall n :: n in BeingCompleted(s, a, b) ==> p in s.chains && s.chains[p].Answered? && s.chains[p].loc == LocalCompleting(n))
      && (p in s.chains ==> StageOk(s, p, s.chains[p]))
  {
  }

  /** The chain of a pair decides where its only answer is. */
  lemma AnswerCounts(s: State, a: Id, b: Id)
    requires ChainInv(s)
    ensures var p := Pair(a, b);
      && |From(s, Key(AnswerSide, a), b)| ==
           |Unread(s, Key(AnswerSide, a), b)| + |BeingApplied(s, a, b)| + |BeingCompleted(s, a, b)| + (if LocallyDone(s, p) then 1 else 0)
      && |From(s, Key(AnswerSide, a), b)| == (if p in s.chains && s.chains[p].Answered? then 1 else 0)
      && |From(s, Key(AnswerSide, a), b)| <= |AnswerAttempts(s, a, b)|
  {
    var key, p := Key(AnswerSide, a), Pair(a, b);
    AnswerPlaces(s, a, b);
    var chain := Stage(s, p);
    var answered := chain.Some? && chain.value.Answered?;
    if answered {
      assert chain.value.j in AnswerAttempts(s, a, b);
    }
    Count(From(s, key, b), if answered then Some(chain.value.k) else None);
    Count(Unread(s, key, b), if answered && chain.value.loc.Unread? then Some(chain.value.k) else None);
    Count(BeingApplied(s, a, b), if answered && chain.value.loc.Applying? then Some(chain.value.loc.n) else None);
    Count(BeingCompleted(s, a, b), if answered && chain.value.loc.LocalCompleting? then Some(chain.value.loc.n) else None);
    OfferCounts(s, a, b);
    NonEmpty(AnswerAttempts(s, a, b));
  }

  lemma NonEmpty(xs: set<nat>)
    ensures xs != {} ==> |xs| >= 1
  {
  }
}
