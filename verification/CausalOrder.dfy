/** The order of events behind an answer: what was signalled, read and answered before. */
module CausalOrder {
  import opened Vocabulary
  import opened Channels
  import opened Server
  import opened System
  import opened Registry
  import opened Discovery
  import opened Chains
  import opened Causality
  import opened QueueHistory
  import Client
  import ConnectionMap

  predicate IsReceive(t: Client.Task) {
    t.ReceiveOffer? || t.ReceiveAnswer?
  }

  function SideOf(t: Client.Task): Side {
    if t.ReceiveOffer? then OfferSide else AnswerSide
  }

  /** At this event the client's listener reads message `i`, the signal `x`. */
  ghost predicate ReadsNow(s: State, e: Event, c: Id, side: Side, i: nat, x: Signal) {
    && e.StepListener? && e.c == c && Enabled(s, e) && TaskOf(s, c, e.n).side == side
    && InChan(s, Key(side, c), i, x) && !WasRead(s, Key(side, c), i)
  }

  /** At this event `a` signals the offer that its callback made for `r`. */
  ghost predicate OffersNow(s: State, e: Event, a: Id, r: Id, offer: Payload) {
    e.StepCreateOffer? && e.c == a && e.offer == offer && Enabled(s, e) && TaskOf(s, a, e.n) == Client.CreateOffer(r)
  }

  /** At this event `r` signals the answer that its callback made to the `j`-th message. */
  ghost predicate AnswersNow(s: State, e: Event, r: Id, j: nat, answer: Payload) {
    e.StepReceiveOffer? && e.c == r && e.answer == answer && Enabled(s, e) && TaskOf(s, r, e.n).at == j
  }

  ghost predicate MadeFor(s: State, a: Id, r: Id, offer: Payload) {
    a in s.nodes && r in s.nodes[a].made && s.nodes[a].made[r] == offer
  }

  ghost predicate RepliedTo(s: State, r: Id, j: nat, answer: Payload) {
    r in s.nodes && j in s.nodes[r].replies && s.nodes[r].replies[j] == answer
  }

  /** No task to receive a signal, no offer and no answer is new. */
  ghost predicate NothingBorn(s: State, s': State) {
    && (forall c, n, t :: HasTask(s', c, n, t) && IsReceive(t) ==> HasTask(s, c, n, t))
    && (forall a, r, offer :: MadeFor(s', a, r, offer) ==> MadeFor(s, a, r, offer))
    && (forall r, j, answer :: RepliedTo(s', r, j, answer) ==> RepliedTo(s, r, j, answer))
  }

  /** Where a new task, a new offer and a new answer come from. */
  ghost predicate Births(s: State, e: Event, s': State) {
    && (forall c, n, t :: HasTask(s', c, n, t) && IsReceive(t) && !HasTask(s, c, n, t) ==>
          ReadsNow(s, e, c, SideOf(t), t.at, Signal(t.remote, t.payload)))
    && (forall a, r, offer :: MadeFor(s', a, r, offer) && !MadeFor(s, a, r, offer) ==> OffersNow(s, e, a, r, offer))
    && (forall r, j, answer :: RepliedTo(s', r, j, answer) && !RepliedTo(s, r, j, answer) ==> AnswersNow(s, e, r, j, answer))
  }

  lemma NothingBornBirths(s: State, e: Event, s': State)
    requires NothingBorn(s, s')
    ensures Births(s, e, s')
  {
  }

  lemma SameChainsBorn(s: State, s': State)
    requires SameChains(s, s')
    ensures NothingBorn(s, s')
  {
    forall c, n, t | HasTask(s', c, n, t) && IsReceive(t) ensures HasTask(s, c, n, t) {
      if c in s.nodes {
        assert n in Work(s'.nodes[c].core);
        assert n in Work(s.nodes[c].core);
      }
    }
  }

  lemma StartsBorn(s: State, s': State, c: Id, n: nat, order: seq<Id>)
    requires Starts(s, s', c, n, order)
    ensures NothingBorn(s, s')
  {
  }

  lemma CompletesBorn(s: State, s': State, c: Id, n: nat, p: Pair)
    requires Completes(s, s', c, n, p)
    ensures NothingBorn(s, s')
  {
  }

  lemma OffersBorn(s: State, s': State, c: Id, n: nat, r: Id, offer: Payload)
    requires Offers(s, s', c, n, r, offer)
    ensures forall x, m, t :: HasTask(s', x, m, t) ==> HasTask(s, x, m, t)
    ensures forall x, y, o :: MadeFor(s', x, y, o) ==> MadeFor(s, x, y, o) || (x == c && y == r && o == offer)
    ensures forall x, j, answer :: RepliedTo(s', x, j, answer) ==> RepliedTo(s, x, j, answer)
  {
  }

  lemma AnswersBorn(s: State, s': State, c: Id, n: nat, r: Id, j: nat, answer: Payload)
    requires Answers(s, s', c, n, r, j, answer)
    ensures forall x, m, t :: HasTask(s', x, m, t) && IsReceive(t) ==> HasTask(s, x, m, t)
    ensures forall x, y, o :: MadeFor(s', x, y, o) ==> MadeFor(s, x, y, o)
    ensures forall x, k, a :: RepliedTo(s', x, k, a) ==> RepliedTo(s, x, k, a) || (x == c && k == j && a == answer)
  {
  }

  lemma DeliversBorn(s: State, s': State, c: Id, n: nat, side: Side, i: nat, x: Signal)
    requires Delivers(s, s', c, n, side, i, x)
    ensures forall y, m, t :: HasTask(s', y, m, t) && IsReceive(t) ==>
      HasTask(s, y, m, t) || (y == c && SideOf(t) == side && t.at == i && Signal(t.remote, t.payload) == x)
    ensures forall y, r, o :: MadeFor(s', y, r, o) ==> MadeFor(s, y, r, o)
    ensures forall y, k, a :: RepliedTo(s', y, k, a) ==> RepliedTo(s, y, k, a)
  {
  }

  /** The events that neither offer, nor answer, nor read. */
  lemma OthersBorn(s: State, e: Event)
    requires DiscoveryInv(s) && ChainInv(s) && Enabled(s, e) && !e.StepCreateOffer? && !e.StepReceiveOffer? && !e.StepListener?
    ensures NothingBorn(s, Apply(s, e))
  {
    if Idle(e) {
      IdleSame(s, e);
      SameChainsBorn(s, Apply(s, e));
    } else if e.StepPeer? {
      StepPeerBorn(s, e.c, e.n);
    } else {
      CompletionsBorn(s, e);
    }
  }

  lemma StepPeerBorn(s: State, c: Id, n: nat)
    requires DiscoveryInv(s) && ChainInv(s) && Enabled(s, StepPeer(c, n))
    ensures NothingBorn(s, DoStepPeer(s, c, n))
  {
    if s.nodes[c].core.first {
      FirstMessageStarts(s, c, n);
      StartsBorn(s, DoStepPeer(s, c, n), c, n, s.streams[c].order);
    } else {
      LaterMessageSame(s, c, n);
      SameChainsBorn(s, DoStepPeer(s, c, n));
    }
  }

  lemma CompletionsBorn(s: State, e: Event)
    requires ChainInv(s) && Enabled(s, e) && (e.StepReceiveAnswer? || e.StepCplt?)
    ensures NothingBorn(s, Apply(s, e))
  {
    match e
    case StepReceiveAnswer(c, n) =>
      ReceiveAnswerCompletes(s, c, n);
      var r := TaskOf(s, c, n).remote;
      if ConnectionMap.Place(s.nodes[c].conns, r, s.nodes[c].held[n]).1 {
        CompletesBorn(s, DoStepReceiveAnswer(s, c, n), c, n, Pair(c, r));
      } else {
        MapErrorSame(s, c, ConnectionMap.Place(s.nodes[c].conns, r, s.nodes[c].held[n]).0);
        SameChainsBorn(s, DoStepReceiveAnswer(s, c, n));
      }
    case StepCplt(c, n) =>
      CpltCompletes(s, c, n);
      CompletesBorn(s, DoStepCplt(s, c, n), c, n, TaskPair(c, TaskOf(s, c, n)));
  }

  lemma CreateOfferBorn(s: State, c: Id, n: nat, offer: Payload)
    requires ChainInv(s) && Enabled(s, StepCreateOffer(c, n, offer))
    ensures Births(s, StepCreateOffer(c, n, offer), DoStepCreateOffer(s, c, n, offer))
  {
    var s', r := DoStepCreateOffer(s, c, n, offer), TaskOf(s, c, n).remote;
    CreateOfferWorks(s, c, n, offer);
    if r in s.nodes[c].conns {
      MapErrorSame(s, c, ConnectionMap.Insert(s.nodes[c].conns, r, LocalConn(r)).0);
      SameChainsBorn(s, s');
    } else {
      OffersBorn(s, s', c, n, r, offer);
    }
  }

  lemma ReceiveOfferBorn(s: State, c: Id, n: nat, answer: Payload)
    requires ChainInv(s) && Enabled(s, StepReceiveOffer(c, n, answer))
    ensures Births(s, StepReceiveOffer(c, n, answer), DoStepReceiveOffer(s, c, n, answer))
  {
    var s', r := DoStepReceiveOffer(s, c, n, answer), TaskOf(s, c, n).remote;
    ReceiveOfferWorks(s, c, n, answer);
    if r in s.nodes[c].conns {
      MapErrorSame(s, c, ConnectionMap.Insert(s.nodes[c].conns, r, RemoteConn(r)).0);
      SameChainsBorn(s, s');
    } else {
      AnswersBorn(s, s', c, n, r, TaskOf(s, c, n).at, answer);
    }
  }

  lemma ListenerBorn(s: State, c: Id, n: nat)
    requires HubInv(s.hub) && TasksOk(s) && Enabled(s, StepListener(c, n))
    ensures Births(s, StepListener(c, n), DoStepListener(s, c, n))
  {
    assert TasksBelow(s.nodes[c]);
    var side, i, x := ListenerDelivers(s, c, n);
    DeliversBorn(s, DoStepListener(s, c, n), c, n, side, i, x);
  }

  lemma EventBirths(s: State, e: Event)
    requires DiscoveryInv(s) && ChainInv(s) && Enabled(s, e)
    ensures Births(s, e, Apply(s, e))
  {
    hide ChainsOk, TasksOk, MessagesOk, RecordsOk, HubInv, At, Births, NothingBorn;
    match e
    case StepCreateOffer(c, n, offer) => CreateOfferBorn(s, c, n, offer);
    case StepReceiveOffer(c, n, answer) => ReceiveOfferBorn(s, c, n, answer);
    case StepListener(c, n) => ListenerBorn(s, c, n);
    case _ =>
      OthersBorn(s, e);
      NothingBornBirths(s, e, Apply(s, e));
  }

  lemma RunBirths(ss: seq<State>, es: seq<Event>, i: nat)
    requires IsRun(ss, es) && i < |ss|
    ensures if i == 0 then ss[0].nodes == map[] else Births(ss[i - 1], es[i - 1], ss[i])
  {
    hide Enabled, Apply, DiscoveryInv, ChainInv, Births;
    if i > 0 {
      ChainsAlways(ss, es, i - 1);
      EventBirths(ss[i - 1], es[i - 1]);
    }
  }

  lemma TaskBorn(ss: seq<State>, es: seq<Event>, i: nat, c: Id, n: nat, t: Client.Task)
    requires IsRun(ss, es) && i < |ss| && HasTask(ss[i], c, n, t) && IsReceive(t)
    ensures i > 0
    ensures HasTask(ss[i - 1], c, n, t) || ReadsNow(ss[i - 1], es[i - 1], c, SideOf(t), t.at, Signal(t.remote, t.payload))
  {
    RunBirths(ss, es, i);
  }

  lemma OfferBorn(ss: seq<State>, es: seq<Event>, i: nat, a: Id, r: Id, offer: Payload)
    requires IsRun(ss, es) && i < |ss| && MadeFor(ss[i], a, r, offer)
    ensures i > 0
    ensures MadeFor(ss[i - 1], a, r, offer) || OffersNow(ss[i - 1], es[i - 1], a, r, offer)
  {
    RunBirths(ss, es, i);
  }

  lemma AnswerBorn(ss: seq<State>, es: seq<Event>, i: nat, r: Id, j: nat, answer: Payload)
    requires IsRun(ss, es) && i < |ss| && RepliedTo(ss[i], r, j, answer)
    ensures i > 0
    ensures RepliedTo(ss[i - 1], r, j, answer) || AnswersNow(ss[i - 1], es[i - 1], r, j, answer)
  {
    RunBirths(ss, es, i);
  }

  lemma {:induction false} TaskWasRead(ss: seq<State>, es: seq<Event>, i: nat, c: Id, n: nat, t: Client.Task) returns (k: nat)
    requires IsRun(ss, es) && i < |ss| && HasTask(ss[i], c, n, t) && IsReceive(t)
    ensures k < i && ReadsNow(ss[k], es[k], c, SideOf(t), t.at, Signal(t.remote, t.payload))
  {
    hide *;
    TaskBorn(ss, es, i, c, n, t);
    if HasTask(ss[i - 1], c, n, t) {
      k := TaskWasRead(ss, es, i - 1, c, n, t);
    } else {
      k := i - 1;
    }
  }

  lemma {:induction false} OfferWasMade(ss: seq<State>, es: seq<Event>, i: nat, a: Id, r: Id, offer: Payload) returns (k: nat)
    requires IsRun(ss, es) && i < |ss| && MadeFor(ss[i], a, r, offer)
    ensures k < i && OffersNow(ss[k], es[k], a, r, offer)
  {
    hide *;
    OfferBorn(ss, es, i, a, r, offer);
    if MadeFor(ss[i - 1], a, r, offer) {
      k := OfferWasMade(ss, es, i - 1, a, r, offer);
    } else {
      k := i - 1;
    }
  }

  lemma {:induction false} AnswerWasMade(ss: seq<State>, es: seq<Event>, i: nat, r: Id, j: nat, answer: Payload) returns (k: nat)
    requires IsRun(ss, es) && i < |ss| && RepliedTo(ss[i], r, j, answer)
    ensures k < i && AnswersNow(ss[k], es[k], r, j, answer)
  {
    hide *;
    AnswerBorn(ss, es, i, r, j, answer);
    if RepliedTo(ss[i - 1], r, j, answer) {
      k := AnswerWasMade(ss, es, i - 1, r, j, answer);
    } else {
      k := i - 1;
    }
  }

  /** What an unread answer implies: the offer it answers was read, and the answer recorded for it. */
  lemma UnreadAnswer(ss: seq<State>, es: seq<Event>, i: nat, a: Id, k: nat, r: Id, answer: Payload) returns (j: nat, offer: Payload)
    requires IsRun(ss, es) && i < |ss|
    requires InChan(ss[i], Key(AnswerSide, a), k, Signal(r, answer)) && !WasRead(ss[i], Key(AnswerSide, a), k)
    ensures RepliedTo(ss[i], r, j, answer) && InChan(ss[i], Key(OfferSide, r), j, Signal(a, offer))
  {
    ChainsAlways(ss, es, i);
    StageBeforeDelivery(ss[i], a, AnswerSide, k, Signal(r, answer));
    assert ChainOk(ss[i], Pair(a, r));
    j := ss[i].chains[Pair(a, r)].j;
    offer := ss[i].nodes[a].made[r];
  }

  /** What an offer being answered implies. */
  lemma OfferBeingAnswered(ss: seq<State>, es: seq<Event>, i: nat, r: Id, n: nat, t: Client.Task)
    requires IsRun(ss, es) && i < |ss| && HasTask(ss[i], r, n, t) && t.ReceiveOffer?
    ensures InChan(ss[i], Key(OfferSide, r), t.at, Signal(t.remote, t.payload))
  {
    ChainsAlways(ss, es, i);
    assert TaskOk(ss[i], r, n, t);
    assert ChainOk(ss[i], Pair(t.remote, r));
  }

  /** What an unread offer implies. */
  lemma UnreadOffer(ss: seq<State>, es: seq<Event>, i: nat, r: Id, j: nat, a: Id, offer: Payload)
    requires IsRun(ss, es) && i < |ss|
    requires InChan(ss[i], Key(OfferSide, r), j, Signal(a, offer)) && !WasRead(ss[i], Key(OfferSide, r), j)
    ensures MadeFor(ss[i], a, r, offer)
  {
    ChainsAlways(ss, es, i);
    UnreadOfferIsAll(ss[i], r, j, Signal(a, offer));
  }

  /** The five events of a signalling chain that reached its answer, in order: `a` signalled an offer
      for `r`; `r` read it; `r` made this answer to that offer and signalled it; `a` read the answer. */
  ghost predicate Happened(ss: seq<State>, es: seq<Event>, a: Id, r: Id, offer: Payload, answer: Payload, j: nat, k: nat,
                           offered: nat, read: nat, answered: nat, heard: nat)
    requires |ss| == |es| + 1
  {
    && offered < read < answered < heard < |es|
    && OffersNow(ss[offered], es[offered], a, r, offer)
    && ReadsNow(ss[read], es[read], r, OfferSide, j, Signal(a, offer))
    && AnswersNow(ss[answered], es[answered], r, j, answer)
    && ReadsNow(ss[heard], es[heard], a, AnswerSide, k, Signal(r, answer))
  }

  /** Causal order. Whenever `a` holds an answer from `r` to apply, then earlier in the run, and in
      this order, `a` signalled an offer for `r`, `r` read exactly that offer, `r`'s callback made
      exactly this answer to it, and `a` read the answer. */
  lemma AnswersHaveCauses(ss: seq<State>, es: seq<Event>, i: nat, a: Id, n: nat, r: Id, answer: Payload, k: nat)
    returns (offer: Payload, j: nat, offered: nat, read: nat, answered: nat, heard: nat)
    requires IsRun(ss, es) && i < |ss| && HasTask(ss[i], a, n, Client.ReceiveAnswer(r, answer, k))
    ensures heard < i && Happened(ss, es, a, r, offer, answer, j, k, offered, read, answered, heard)
  {
    heard := TaskWasRead(ss, es, i, a, n, Client.ReceiveAnswer(r, answer, k));
    j, offer := UnreadAnswer(ss, es, heard, a, k, r, answer);
    answered := AnswerWasMade(ss, es, heard, r, j, answer);
    read := OfferWasRead(ss, es, answered, heard, r, j, answer, a, offer);
    UnreadOffer(ss, es, read, r, j, a, offer);
    offered := OfferWasMade(ss, es, read, a, r, offer);
  }

  /** The answer was made to the offer in that place of the channel, which never changes. */
  lemma OfferWasRead(ss: seq<State>, es: seq<Event>, answered: nat, heard: nat, r: Id, j: nat, answer: Payload, a: Id, offer: Payload)
    returns (read: nat)
    requires IsRun(ss, es) && answered < heard < |es| && AnswersNow(ss[answered], es[answered], r, j, answer)
    requires InChan(ss[heard], Key(OfferSide, r), j, Signal(a, offer))
    ensures read < answered && ReadsNow(ss[read], es[read], r, OfferSide, j, Signal(a, offer))
  {
    var t := TaskOf(ss[answered], r, es[answered].n);
    OfferBeingAnswered(ss, es, answered, r, es[answered].n, t);
    ChannelGrows(ss, es, answered, heard, Key(OfferSide, r));
    read := TaskWasRead(ss, es, answered, r, es[answered].n, t);
  }
}
