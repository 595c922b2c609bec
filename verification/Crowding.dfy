/** A run without any departure or failure in which a peer is nevertheless lost: a channel is full. */
module Crowding {
  import opened Vocabulary
  import opened Channels
  import opened Broadcast
  import opened Server
  import opened System
  import opened Registry
  import opened Discovery
  import opened Chains
  import opened Causality
  import opened Connections
  import opened CalmRuns
  import opened Mesh
  import opened Limits
  import opened Runs
  import opened Startups
  import Vanishing
  import Convergence
  import Client

  const TO_FIRST: Key := Key(OfferSide, 0)

  /** Peers 1 to `k - 1` have signalled offers to the first peer, which has not read any, and the
      peers from `k` on have not been stepped. */
  ghost predicate Queueing(s: State, k: nat) {
    && k > 0
    && (forall c :: c in s.nodes && c >= k ==> s.nodes[c] == Fresh(c))
    && (forall c :: c in s.streams && c > 0 ==> 0 in s.streams[c].order)
    && FirstListens(s.hub, k)
  }

  /** The first peer's offer channel is open, and holds `k` messages. */
  ghost predicate FirstListens(h: Hub, k: nat) {
    && 0 in h.peers && OfferSide in h.peers[0] && TO_FIRST in h.chans
    && h.chans[TO_FIRST].alive && h.chans[TO_FIRST].fwd == 0 && |h.chans[TO_FIRST].log| == k
  }

  /** Client `c` has read its initial list, and is to create an offer for the first peer. */
  ghost predicate Offering(s: State, c: Id, m: nat) {
    && Active(s, c) && s.nodes[c].conns == map[] && HasTask(s, c, m, Client.CreateOffer(0))
    && (forall x :: x in s.nodes && x > c ==> s.nodes[x] == Fresh(x))
    && (forall x :: x in s.streams && x > 0 ==> 0 in s.streams[x].order)
  }

  lemma StartsQueueing(s: State, n: nat)
    requires AllStarted(s, n) && MeshInv(s) && n > 0
    ensures Queueing(s, 1)
  {
    hide ChainInv, ConnInv, SerialInv, OneSided, NoneRefused;
    assert At(s, 0);
  }

  lemma CanRead(s: State, c: Id)
    requires DiscoveryInv(s) && c in s.nodes && s.nodes[c] == Fresh(c)
    ensures Enabled(s, StepPeer(c, 0))
  {
    assert At(s, c);
  }

  lemma ReadsList(s: State, c: Id) returns (s': State, m: nat)
    requires DiscoveryInv(s) && ChainInv(s) && Queueing(s, c) && c in s.nodes
    ensures Steps(s, StepPeer(c, 0), s') && Offering(s', c, m) && s'.hub == s.hub
  {
    hide ChainInv, FirstListens, DoStepPeer, Starts;
    CanRead(s, c);
    FirstMessageStarts(s, c, 0);
    s' := DoStepPeer(s, c, 0);
    hide Queueing, DiscoveryInv, Enabled;
    m := OfferToFirst(s, s', c, s.streams[c].order);
  }

  lemma OfferToFirst(s: State, s': State, c: Id, order: seq<Id>) returns (m: nat)
    requires Starts(s, s', c, 0, order) && Queueing(s, c)
    ensures Offering(s', c, m) && s'.hub == s.hub
  {
    assert 0 in order;
    var i: nat :| i < |order| && order[i] == 0;
    m := s.nodes[c].core.next + 1 + i;
    assert m in s'.nodes[c].core.tasks;
  }

  /** The first peer's channel takes one more offer while it holds fewer than 16 messages. */
  lemma OfferFits(s: State, c: Id, m: nat) returns (s': State)
    requires TasksOk(s) && Offering(s, c, m) && c > 0 && FirstListens(s.hub, c) && c < 16
    ensures Steps(s, StepCreateOffer(c, m, ""), s') && Queueing(s', c + 1) && s'.hub.gen == s.hub.gen
  {
    hide TasksOk, FirstListens, Send, DoStepCreateOffer, Offers, Queueing;
    s' := DoStepCreateOffer(s, c, m, "");
    CreateOfferWorks(s, c, m, "");
    OfferQueues(s, s', c, m);
  }

  lemma OfferQueues(s: State, s': State, c: Id, m: nat)
    requires Offering(s, c, m) && c > 0 && FirstListens(s.hub, c) && c < 16 && Offers(s, s', c, m, 0, "")
    ensures Queueing(s', c + 1) && s'.hub.gen == s.hub.gen
  {
    FirstTakes(s.hub, c, Signal(c, ""));
    hide CoreWorked, FirstListens, Send, HasTask, OfferStage;
  }

  lemma FirstTakes(h: Hub, k: nat, x: Signal)
    requires FirstListens(h, k) && k <= 16
    ensures if k < 16 then FirstListens(Send(h, OfferSide, 0, x).0, k + 1) else Judge(h, OfferSide, 0).Overfull?
    ensures Send(h, OfferSide, 0, x).0.gen == h.gen
    ensures k == 16 ==> Send(h, OfferSide, 0, x).1 == Err(Aborted)
  {
  }

  /** The next one is refused. */
  lemma OfferIsRefused(s: State, m: nat) returns (s': State)
    requires TasksOk(s) && Offering(s, 16, m) && FirstListens(s.hub, 16)
    ensures Steps(s, StepCreateOffer(16, m, ""), s') && Vanishing.Refused(s', Pair(16, 0)) && s'.hub.gen == s.hub.gen
  {
    s' := DoStepCreateOffer(s, 16, m, "");
    CreateOfferWorks(s, 16, m, "");
    FirstTakes(s.hub, 16, Signal(16, ""));
    hide TasksOk, DoStepCreateOffer, Worked, FirstListens, Send;
  }

  lemma {:induction false} OffersQueue(n: nat, k: nat) returns (ss: seq<State>, es: seq<Event>, s: State)
    requires 0 < k <= 16 < n <= ID_SPACE
    ensures SerialRun(ss, es, s) && Queueing(s, k) && s.hub.gen == n
  {
    hide *;
    if k == 1 {
      ss, es, s := SerialStarts(n);
      StartsAreCalm(ss, es, s);
      StartsQueueing(s, n);
      NumberStarted(s, n);
    } else {
      ss, es, s := OffersQueue(n, k - 1);
      ss, es, s := OneMoreOffer(ss, es, s, k - 1);
    }
  }

  lemma NumberStarted(s: State, n: nat)
    requires AllStarted(s, n)
    ensures s.hub.gen == n
  {
  }

  lemma RunFacts(ss: seq<State>, es: seq<Event>, s: State, c: Id)
    requires SerialRun(ss, es, s) && c < s.hub.gen
    ensures DiscoveryInv(s) && ChainInv(s) && TasksOk(s) && c in s.nodes
  {
    ChainsAlways(ss, es, |es|);
  }

  lemma OfferMade(ss: seq<State>, es: seq<Event>, s: State, c: Id) returns (ss': seq<State>, es': seq<Event>, s': State, m: nat)
    requires SerialRun(ss, es, s) && Queueing(s, c) && c < s.hub.gen
    ensures SerialRun(ss', es', s') && Offering(s', c, m) && s'.hub == s.hub && TasksOk(s')
  {
    hide *;
    RunFacts(ss, es, s, c);
    s', m := ReadsList(s, c);
    ss', es' := Longer(ss, es, s, StepPeer(c, 0), s');
    RunFacts(ss', es', s', c);
  }

  lemma OneMoreOffer(ss: seq<State>, es: seq<Event>, s: State, c: Id) returns (ss': seq<State>, es': seq<Event>, s': State)
    requires SerialRun(ss, es, s) && Queueing(s, c) && 0 < c < 16 && c < s.hub.gen
    ensures SerialRun(ss', es', s') && Queueing(s', c + 1) && s'.hub.gen == s.hub.gen
  {
    assert FirstListens(s.hub, c);
    hide *;
    var s1, m;
    ss', es', s1, m := OfferMade(ss, es, s, c);
    s' := OfferFits(s1, c, m);
    ss', es' := Longer(ss', es', s1, StepCreateOffer(c, m, ""), s');
  }

  lemma SeventeenthIsRefused(n: nat) returns (ss: seq<State>, es: seq<Event>, s: State)
    requires 17 <= n <= ID_SPACE
    ensures SerialRun(ss, es, s) && s.hub.gen == n && Vanishing.Refused(s, Pair(16, 0))
  {
    ss, es, s := OffersQueue(n, 16);
    assert FirstListens(s.hub, 16);
    hide *;
    var s1, m;
    ss, es, s1, m := OfferMade(ss, es, s, 16);
    s := OfferIsRefused(s1, m);
    ss, es := Longer(ss, es, s1, StepCreateOffer(16, m, ""), s);
  }

  /** From 17 peers on a channel can be full: there is a run with serialised starts, which nobody
      leaves, in which sixteen offers for the first peer come faster than it reads them, and which
      comes to rest without a complete mesh. */
  lemma CrowdedPeerIsLost(n: nat) returns (ss: seq<State>, es: seq<Event>)
    requires 17 <= n <= ID_SPACE
    ensures Rested(ss, es, n) && !FullMesh(ss[|es|], n)
  {
    hide *;
    var s;
    ss, es, s := SeventeenthIsRefused(n);
    Lengths(ss, es, s);
    var i := |es|;
    ss, es := ComesToRest(ss, es, s);
    RefusedIsNoMesh(ss, es, n, i);
  }

  lemma RefusedIsNoMesh(ss: seq<State>, es: seq<Event>, n: nat, i: nat)
    requires Rested(ss, es, n) && i < |ss| == |es| + 1 && Vanishing.Refused(ss[i], Pair(16, 0))
    ensures !FullMesh(ss[|es|], n)
  {
    Vanishing.RefusedNeverCompletes(ss, es, i, |es|, Pair(16, 0));
    hide Vanishing.Refused, Rested, Quiescent;
  }

  lemma SomeRunRests(n: nat) returns (ss: seq<State>, es: seq<Event>)
    requires n <= ID_SPACE
    ensures Rested(ss, es, n)
  {
    hide *;
    var s;
    ss, es, s := SerialStarts(n);
    NumberStarted(s, n);
    ss, es := ComesToRest(ss, es, s);
  }

  /** The number of peers decides: there are runs with serialised starts, which nobody leaves and
      which come to rest with `n` peers, and all of them end in a complete mesh if and only if there
      are at most 16 peers. */
  lemma MeshGuaranteed(n: nat)
    requires n <= ID_SPACE
    ensures exists ss, es :: Rested(ss, es, n)
    ensures (forall ss, es :: Rested(ss, es, n) ==> FullMesh(ss[|es|], n)) <==> n <= 16
  {
    var ss0, es0 := SomeRunRests(n);
    if n <= 16 {
      forall ss, es | Rested(ss, es, n) ensures FullMesh(ss[|es|], n) {
        FewPeersMesh(ss, es, n);
      }
    } else {
      var ss, es := CrowdedPeerIsLost(n);
    }
  }
}
