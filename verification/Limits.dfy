/** Sixteen peers fit: no listener lags and no channel is ever full, so a complete mesh is certain. */
module Limits {
  import opened Vocabulary
  import opened Channels
  import opened Broadcast
  import opened Server
  import opened System
  import opened Registry
  import opened Discovery
  import opened Chains
  import opened Causality
  import opened Connections
  import opened Stopping
  import opened CalmRuns
  import opened Mesh
  import Convergence
  import Client

  /** A stream that has ended is behind the ring, and stays so. */
  ghost predicate EndedBehind(s: State) {
    forall c :: c in s.streams && s.streams[c].ended ==> s.streams[c].pos < Oldest(s.hub.log)
  }

  /** A stream that has ended had ended before, or ends now for it is behind. */
  ghost predicate EndsBehind(s: State, s': State, c: Id) {
    c in s'.streams && s'.streams[c].ended ==>
      c in s.streams && s'.streams[c].pos == s.streams[c].pos && (s.streams[c].ended || s.streams[c].pos < Oldest(s.hub.log))
  }

  lemma ActorEndsBehind(s: State, e: Event, c: Id)
    requires Enabled(s, e) && (e.OpenPeer? || e.Open? || e.PumpPeer? || e.StepPeer? || e.SyncReply? || e.Stop?)
    ensures EndsBehind(s, Apply(s, e), c)
  {
    hide OnPeerEvent, Discovering, Started;
  }

  lemma EventEndsBehind(s: State, e: Event, c: Id)
    requires DiscoveryInv(s) && Enabled(s, e)
    ensures EndsBehind(s, Apply(s, e), c)
  {
    hide HubInv, StreamOk, DiscoveryOk, NodeOk;
    if ChainEvent(e) {
      ChainEventUndisturbed(s, e);
    } else if e.Advertise? {
      NewcomerOk(s);
    } else if ActorOf(e).None? {
      EventsOnTheSide(s, e);
    } else {
      ActorEndsBehind(s, e, c);
    }
  }

  lemma EndedBehindKept(s: State, e: Event)
    requires DiscoveryInv(s) && EndedBehind(s) && Enabled(s, e)
    ensures EndedBehind(Apply(s, e))
  {
    hide HubInv, At, Enabled, Apply;
    HubKept(s, e);
    forall c | c in Apply(s, e).streams && Apply(s, e).streams[c].ended
      ensures Apply(s, e).streams[c].pos < Oldest(Apply(s, e).hub.log)
    {
      hide DiscoveryInv;
      EventEndsBehind(s, e, c);
    }
  }

  lemma {:induction false} EndedBehindAlways(ss: seq<State>, es: seq<Event>, i: nat)
    requires IsRun(ss, es) && i < |ss|
    ensures EndedBehind(ss[i])
  {
    hide EndedBehind, DiscoveryInv, Apply, Enabled;
    if i > 0 {
      Convergence.DiscoveryAlways(ss, es, i - 1);
      EndedBehindAlways(ss, es, i - 1);
      EndedBehindKept(ss[i - 1], es[i - 1]);
    } else {
      assert EndedBehind(INITIAL) by { NothingEnded(); }
    }
  }

  lemma NothingEnded()
    ensures EndedBehind(INITIAL)
  {
  }

  /** In any run, a client reads a data-loss error only after at least 18 broadcasts: its own
      addition precedes its subscription, and the ring keeps 16. */
  lemma LossTakesBroadcasts(ss: seq<State>, es: seq<Event>, i: nat, c: Id)
    requires IsRun(ss, es) && i < |es| && ReadsLoss(ss[i], es[i], c)
    ensures |ss[i].hub.log| >= 18
  {
    Convergence.DiscoveryAlways(ss, es, i);
    EndedBehindAlways(ss, es, i);
    assert At(ss[i], c);
    Convergence.WireFacts(c, ss[i].nodes[c], ss[i].streams[c], ss[i].hub);
  }

  /** Who has signalled on a channel, in order. */
  function Senders(log: seq<Option<Signal>>): seq<Id>
    requires forall i :: 1 <= i < |log| ==> log[i].Some?
  {
    seq(if log == [] then 0 else |log| - 1, i requires 0 <= i < |log| - 1 => log[i + 1].value.sender)
  }

  lemma SendersDiffer(s: State, key: Key)
    requires ChainInv(s) && key in s.hub.chans && ChanOk(s.hub.chans[key])
    ensures NoDuplicates(Senders(s.hub.chans[key].log))
  {
    hide ChainInv;
    var senders := Senders(s.hub.chans[key].log);
    forall i, j | 0 <= i < j < |senders| ensures senders[i] != senders[j] {
      SignalsOnce(s, key, i + 1, j + 1);
    }
  }

  lemma SendersAreOthers(s: State, key: Key, c: Id)
    requires DiscoveryInv(s) && ChainInv(s) && key in s.hub.chans && ChanOk(s.hub.chans[key])
    requires forall i: nat, x :: InChan(s, key, i, x) ==> x.sender != c
    ensures forall x :: x in Senders(s.hub.chans[key].log) ==> x < s.hub.gen && x != c && x != key.id
  {
    hide ChainInv;
    var log := s.hub.chans[key].log;
    forall x | x in Senders(log) ensures x < s.hub.gen && x != c && x != key.id {
      var i: nat :| i < |Senders(log)| && Senders(log)[i] == x;
      assert InChan(s, key, i + 1, log[i + 1].value);
      SenderExists(s, key, i + 1, log[i + 1].value);
    }
  }

  /** Distinct IDs below `n` other than two of these. */
  lemma AllButTwo(ids: seq<Id>, n: nat, a: Id, b: Id)
    requires NoDuplicates(ids) && a < n && b < n && a != b && forall x :: x in ids ==> x < n && x != a && x != b
    ensures |ids| + 2 <= n
  {
    ListSize(ids);
    SubsetSize(Elements(ids) + {a, b}, Below(n));
    assert |Elements(ids) + {a, b}| == |ids| + 2 by {
      assert Elements(ids) !! {a, b};
    }
  }

  /** Nobody signals twice on a channel, and the owner and peers that have not signalled do not count. */
  lemma ChannelSize(s: State, key: Key, c: Id)
    requires DiscoveryInv(s) && ChainInv(s) && key in s.hub.chans && c in s.nodes && c != key.id
    requires forall i: nat, x :: InChan(s, key, i, x) ==> x.sender != c
    ensures |s.hub.chans[key].log| + 1 <= s.hub.gen
  {
    hide ChainInv, InChan;
    SendersDiffer(s, key);
    SendersAreOthers(s, key, c);
    AllButTwo(Senders(s.hub.chans[key].log), s.hub.gen, c, key.id);
  }

  lemma SignalsOnce(s: State, key: Key, i: nat, j: nat)
    requires ChainInv(s) && key in s.hub.chans && 1 <= i < j < |s.hub.chans[key].log|
    requires s.hub.chans[key].log[i].Some? && s.hub.chans[key].log[j].Some?
    ensures s.hub.chans[key].log[i].value.sender != s.hub.chans[key].log[j].value.sender
  {
    var log := s.hub.chans[key].log;
    MessageFact(s, key, i, log[i].value);
    MessageFact(s, key, j, log[j].value);
  }

  lemma SenderExists(s: State, key: Key, i: nat, x: Signal)
    requires ChainInv(s) && InChan(s, key, i, x)
    ensures x.sender in s.nodes && x.sender != key.id
  {
    MessageFact(s, key, i, x);
    PairFact(s, Pair(x.sender, key.id));
    PairFact(s, Pair(key.id, x.sender));
  }

  /** The peer that is about to signal has not done so yet. */
  lemma NotYetSignalled(s: State, c: Id, n: nat, t: Client.Task)
    requires ChainInv(s) && HasTask(s, c, n, t) && (t.CreateOffer? || t.ReceiveOffer?)
    ensures t.remote != c
    ensures var key := Key(if t.CreateOffer? then OfferSide else AnswerSide, t.remote);
      forall i: nat, x :: InChan(s, key, i, x) ==> x.sender != c
  {
    TaskFact(s, c, n, t);
    PairFact(s, if t.CreateOffer? then Pair(c, t.remote) else Pair(t.remote, c));
    var key := Key(if t.CreateOffer? then OfferSide else AnswerSide, t.remote);
    forall i: nat, x | InChan(s, key, i, x) ensures x.sender != c {
      MessageFact(s, key, i, x);
    }
  }

  lemma FullNeedsPeers(s: State, c: Id, n: nat, t: Client.Task)
    requires DiscoveryInv(s) && ChainInv(s) && HasTask(s, c, n, t) && (t.CreateOffer? || t.ReceiveOffer?)
    requires Judge(s.hub, if t.CreateOffer? then OfferSide else AnswerSide, t.remote).Overfull?
    ensures s.hub.gen > 16
  {
    hide ChainInv;
    NotYetSignalled(s, c, n, t);
    ChannelSize(s, Key(if t.CreateOffer? then OfferSide else AnswerSide, t.remote), c);
  }

  /** In any run, a channel refuses a signal as full only after at least 17 advertisements. */
  lemma FullTakesPeers(ss: seq<State>, es: seq<Event>, i: nat, c: Id)
    requires IsRun(ss, es) && i < |es| && RefusedAsFull(ss[i], es[i], c)
    ensures ss[i].hub.gen > 16
  {
    ChainsAlways(ss, es, i);
    hide DiscoveryInv, ChainInv;
    FullNeedsPeers(ss[i], c, es[i].n, TaskOf(ss[i], c, es[i].n));
  }

  /** Nobody stops by itself, is torn down, or drops a stream. */
  ghost predicate NobodyLeaves(es: seq<Event>) {
    forall e :: e in es ==> !e.Stop? && !e.Teardown? && !e.Drop?
  }

  /** Every stream is alive, and nothing but additions was ever broadcast. */
  ghost predicate OnlyAdditions(s: State) {
    (forall key :: key in s.hub.chans ==> s.hub.chans[key].alive) && |s.hub.log| == s.hub.gen
  }

  lemma OnlyAdditionsKept(s: State, e: Event)
    requires HubInv(s.hub) && OnlyAdditions(s) && Enabled(s, e) && !e.Teardown? && !e.Drop?
    ensures OnlyAdditions(Apply(s, e))
  {
    hide HubInv;
    if AtClient(e) {
      LocalKeepsHub(s, e);
    } else if e.StepCreateOffer? || e.StepReceiveOffer? || e.StepListener? {
      CalmSignalsHub(s, e);
    } else if e.Advertise? {
      AdvertiseKeeps(s.hub);
    }
  }

  lemma {:induction false} OnlyAdditionsAlways(ss: seq<State>, es: seq<Event>, i: nat)
    requires IsRun(ss, es) && NobodyLeaves(es) && i < |ss|
    ensures OnlyAdditions(ss[i])
  {
    hide HubInv, Apply, Enabled;
    if i > 0 {
      Convergence.DiscoveryAlways(ss, es, i - 1);
      OnlyAdditionsAlways(ss, es, i - 1);
      assert es[i - 1] in es;
      OnlyAdditionsKept(ss[i - 1], es[i - 1]);
    }
  }

  lemma {:induction false} GenGrows(ss: seq<State>, es: seq<Event>, i: nat, j: nat)
    requires IsRun(ss, es) && i <= j < |ss|
    ensures ss[i].hub.gen <= ss[j].hub.gen
    decreases j
  {
    hide HubInv, Apply, Enabled;
    if i < j {
      GenGrows(ss, es, i, j - 1);
      Convergence.DiscoveryAlways(ss, es, j - 1);
      HubKept(ss[j - 1], es[j - 1]);
    }
  }

  /** Up to sixteen peers, a run in which nobody leaves is calm. */
  lemma FewPeersAreCalm(ss: seq<State>, es: seq<Event>)
    requires IsRun(ss, es) && NobodyLeaves(es) && ss[|es|].hub.gen <= 16
    ensures Calm(ss, es)
  {
    forall i: nat | i < |es| ensures Untroubled(ss[i], es[i]) {
      FewPeersAreCalmAt(ss, es, i);
    }
  }

  lemma FewPeersAreCalmAt(ss: seq<State>, es: seq<Event>, i: nat)
    requires IsRun(ss, es) && NobodyLeaves(es) && ss[|es|].hub.gen <= 16 && i < |es|
    ensures Untroubled(ss[i], es[i])
  {
    assert es[i] in es;
    GenGrows(ss, es, i, |es|);
    OnlyAdditionsAlways(ss, es, i);
    if es[i].StepPeer? && ReadsLoss(ss[i], es[i], es[i].c) {
      LossTakesBroadcasts(ss, es, i, es[i].c);
    }
    if (es[i].StepCreateOffer? || es[i].StepReceiveOffer?) && RefusedAsFull(ss[i], es[i], es[i].c) {
      FullTakesPeers(ss, es, i, es[i].c);
    }
  }

  ghost predicate AllActive(s: State) {
    forall c :: c in s.nodes ==> Active(s, c)
  }

  /** A run with serialised starts in which nobody leaves and which has come to rest with `n` peers. */
  ghost predicate Rested(ss: seq<State>, es: seq<Event>, n: nat) {
    IsRun(ss, es) && Serial(ss, es) && NobodyLeaves(es) && Quiescent(ss[|es|]) && ss[|es|].hub.gen == n
  }

  /** The actor of a troubled event stops and never acts again. */
  lemma TroubleIsForGood(ss: seq<State>, es: seq<Event>, i: nat)
    requires IsRun(ss, es) && NobodyLeaves(es) && i < |es| && !Untroubled(ss[i], es[i])
    ensures !AllActive(ss[|es|])
  {
    assert es[i] in es;
    var c := ActorOf(es[i]).value;
    assert Active(ss[i], c) && StopsBy(ss[i], es[i], c);
    StopsIff(ss, es, i, c);
    StoppedForGood(ss, es, i + 1, |es|, c);
  }

  /** Exactly when the mesh is complete: a run with serialised starts that nobody leaves comes to
      rest with a complete mesh of clients that all go on, if and only if no listener lagged behind
      the ring and no full channel refused a signal. */
  lemma MeshIff(ss: seq<State>, es: seq<Event>, n: nat)
    requires Rested(ss, es, n)
    ensures FullMesh(ss[|es|], n) && AllActive(ss[|es|]) <==> Calm(ss, es)
  {
    if Calm(ss, es) {
      CompleteMesh(ss, es, |es|);
      forall c | c in ss[|es|].nodes ensures Active(ss[|es|], c) {
        EverybodyKnown(ss, es, |es|, c);
      }
    } else {
      var i: nat :| i < |es| && !Untroubled(ss[i], es[i]);
      TroubleIsForGood(ss, es, i);
    }
  }

  /** Up to sixteen peers the mesh is certain: peers that start one at a time and stay end up with
      every pair signalled exactly once, whatever the interleaving. */
  lemma FewPeersMesh(ss: seq<State>, es: seq<Event>, n: nat)
    requires Rested(ss, es, n) && n <= 16
    ensures FullMesh(ss[|es|], n) && CompletionsCounted(ss[|es|], n) && AllActive(ss[|es|])
  {
    FewPeersAreCalm(ss, es);
    MeshIff(ss, es, n);
    MeshCounted(ss[|es|], n);
  }
}
