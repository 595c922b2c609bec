/** The full mesh: with serialised starts, every calm run that comes to rest has signalled every
    pair of peers exactly once. */
module Mesh {
  import opened Vocabulary
  import opened Channels
  import opened Broadcast
  import opened Server
  import opened System
  import opened Registry
  import opened Discovery
  import opened Chains
  import opened Causality
  import opened Connections
  import opened Liveness
  import opened CalmRuns
  import opened Coverage
  import Convergence
  import Termination
  import Client

  /** Nothing more happens by itself: only new peers, departures and failures remain possible. */
  ghost predicate Quiescent(s: State) {
    forall e :: Enabled(s, e) ==> e.Advertise? || e.Stop? || e.Teardown? || e.Drop?
  }

  /** Every finite set of IDs can be listed. */
  lemma {:induction false} SomeListing(ids: set<Id>) returns (order: seq<Id>)
    ensures Lists(order, ids)
    decreases |ids|
  {
    if ids == {} {
      order := [];
    } else {
      var x :| x in ids;
      var rest := SomeListing(ids - {x});
      order := [x] + rest;
      assert forall y :: y in order <==> y == x || y in rest;
    }
  }

  /** A client that is not yet in its step loop, or waits there for a reply, can go on. */
  lemma CanGoOn(s: State, c: Id) returns (e: Event)
    requires c in s.nodes && s.nodes[c].phase != Stopped && !Active(s, c)
    ensures Enabled(s, e) && (e.OpenPeer? || e.Open? || e.SyncReply?)
  {
    match s.nodes[c].phase
    case Advertised =>
      var order := SomeListing(Discover(s.hub, c));
      e := OpenPeer(c, order);
    case PeerOpen => e := Open(c, OfferSide);
    case OfferOpen => e := Open(c, AnswerSide);
    case Running => e := SyncReply(c);
  }

  lemma AllRunning(s: State, c: Id)
    requires Quiescent(s) && NoneStopped(s) && c in s.nodes
    ensures Active(s, c)
  {
    if !Active(s, c) {
      var e := CanGoOn(s, c);
    }
  }

  /** At rest a client has read its whole peer stream, and so everything ever broadcast to it. */
  lemma StreamDrained(s: State, c: Id)
    requires Quiescent(s) && Listening(s) && Active(s, c) && At(s, c)
    ensures c in s.streams && !s.nodes[c].core.first && Convergence.Unread(s, c) == |s.hub.log|
  {
    var n := ListenerOf(s, c, Client.PeerListener);
    assert !Enabled(s, StepPeer(c, n));
    assert !Enabled(s, PumpPeer(c));
    Convergence.WireFacts(c, s.nodes[c], s.streams[c], s.hub);
    WireLength(c, s.nodes[c], s.streams[c], s.hub.log);
  }

  lemma WireLength(c: Id, node: Node, st: PeerStream, log: seq<Change>)
    requires StreamOk(c, node, st, log) && node.phase == Running && st.wire == []
    ensures !node.core.first && st.start + |node.applied| == st.pos
  {
  }

  /** A signal that was accepted by a running client's channel does not stay unread at rest. */
  lemma NothingUnread(s: State, c: Id, side: Side, i: nat, x: Signal)
    requires Quiescent(s) && Listening(s) && Active(s, c)
    requires InChan(s, Key(side, c), i, x) && ChanOk(s.hub.chans[Key(side, c)]) && s.hub.chans[Key(side, c)].alive
    ensures WasRead(s, Key(side, c), i)
  {
    var key := Key(side, c);
    var n := ListenerOf(s, c, Client.Listener(side));
    assert !Enabled(s, Forward(key));
    assert !Enabled(s, StepListener(c, n));
  }

  lemma NothingHeldUp(s: State, c: Id, n: nat, t: Client.Task)
    requires Quiescent(s) && Active(s, c) && HasTask(s, c, n, t)
    ensures Client.IsListener(t)
  {
    assert !Enabled(s, StepCreateOffer(c, n, ""));
    assert !Enabled(s, StepReceiveOffer(c, n, ""));
    assert !Enabled(s, Take(c, n));
    assert !Enabled(s, StepReceiveAnswer(c, n));
    assert !Enabled(s, StepCplt(c, n));
  }

  lemma ChannelAlive(s: State, key: Key)
    requires HubInv(s.hub) && CalmHub(s) && key in s.hub.chans
    ensures ChanOk(s.hub.chans[key]) && s.hub.chans[key].alive
  {
  }

  /** At rest every chain has completed on both sides. */
  lemma ChainCompleted(s: State, p: Pair)
    requires Quiescent(s) && Listening(s) && HubInv(s.hub) && CalmHub(s) && NoneRefused(s)
    requires p in s.chains && ChainOk(s, p) && Active(s, p.offerer) && Active(s, p.answerer)
    ensures LocallyDone(s, p) && RemotelyDone(s, p)
  {
    match s.chains[p]
    case Creating(n) => NothingHeldUp(s, p.offerer, n, Client.CreateOffer(p.answerer));
    case OfferSent(j) =>
      ChannelAlive(s, Key(OfferSide, p.answerer));
      NothingUnread(s, p.answerer, OfferSide, j, Signal(p.offerer, s.nodes[p.offerer].made[p.answerer]));
    case Answering(j, n) =>
      NothingHeldUp(s, p.answerer, n, Client.ReceiveOffer(p.offerer, s.nodes[p.offerer].made[p.answerer], j));
    case Answered(j, k, loc, rem) =>
      LocalCompleted(s, p, j, k, loc);
      if rem.RemoteCompleting? {
        NothingHeldUp(s, p.answerer, rem.n, Client.RemoteCplt(p.offerer));
      }
    case _ =>
  }

  lemma LocalCompleted(s: State, p: Pair, j: nat, k: nat, loc: Local)
    requires Quiescent(s) && Listening(s) && HubInv(s.hub) && CalmHub(s) && Active(s, p.offerer)
    requires AnswerAt(s, p, j, k) && LocalOk(s, p, j, k, loc)
    ensures loc.LocalDone?
  {
    var answer := s.nodes[p.answerer].replies[j];
    match loc
    case Unread =>
      ChannelAlive(s, Key(AnswerSide, p.offerer));
      NothingUnread(s, p.offerer, AnswerSide, k, Signal(p.answerer, answer));
    case Applying(n) => NothingHeldUp(s, p.offerer, n, Client.ReceiveAnswer(p.answerer, answer, k));
    case LocalCompleting(n) => NothingHeldUp(s, p.offerer, n, Client.LocalCplt(p.answerer));
    case LocalDone =>
  }

  /** The chains of a calm run go from every peer to every older one. */
  lemma ChainsGoToOlder(s: State, c: Id, r: Id)
    requires MeshInv(s) && Launched(s) && c in s.nodes && c in s.streams && !s.nodes[c].core.first
    ensures Pair(c, r) in s.chains <==> r < c
  {
    if Pair(c, r) in s.chains {
      assert ChainOk(s, Pair(c, r));
    }
  }

  lemma PairCompleted(s: State, c: Id, r: Id)
    requires Quiescent(s) && Listening(s) && MeshInv(s) && Launched(s) && c in s.nodes && r in s.nodes
    ensures LocallyDone(s, Pair(c, r)) <==> r < c
    ensures RemotelyDone(s, Pair(c, r)) <==> r < c
  {
    AllRunning(s, c);
    AllRunning(s, r);
    assert At(s, c);
    StreamDrained(s, c);
    ChainsGoToOlder(s, c, r);
    if r < c {
      assert ChainOk(s, Pair(c, r));
      ChainCompleted(s, Pair(c, r));
    }
  }

  /** A multiset that holds each member of a set once. */
  lemma OnceEach(m: multiset<Id>, ids: set<Id>)
    requires forall x :: m[x] == if x in ids then 1 else 0
    ensures |m| == |ids|
  {
    assert m == multiset(ids);
  }

  function LocalTotal(s: State, n: nat): nat {
    if n == 0 then 0 else LocalTotal(s, n - 1) + if n - 1 in s.nodes then |s.nodes[n - 1].localDone| else 0
  }

  function RemoteTotal(s: State, n: nat): nat {
    if n == 0 then 0 else RemoteTotal(s, n - 1) + if n - 1 in s.nodes then |s.nodes[n - 1].remoteDone| else 0
  }

  /** Exactly one local completion at the newer peer and one remote completion at the older one. */
  ghost predicate FullMesh(s: State, n: nat) {
    && (forall c: Id :: c in s.nodes <==> c < n)
    && (forall c, r: Id :: c in s.nodes ==> s.nodes[c].localDone[r] == if r < c then 1 else 0)
    && (forall c, r: Id :: c in s.nodes ==> s.nodes[c].remoteDone[r] == if c < r < n then 1 else 0)
  }

  lemma DoneCounts(s: State, n: nat, c: Id)
    requires FullMesh(s, n) && c < n
    ensures |s.nodes[c].localDone| == c && |s.nodes[c].remoteDone| == n - c - 1
  {
    OnceEach(s.nodes[c].localDone, Below(c));
    OnceEach(s.nodes[c].remoteDone, Below(n) - Below(c + 1));
    assert Below(n) == Below(c + 1) + (Below(n) - Below(c + 1));
  }

  lemma {:induction false} MeshTotals(s: State, n: nat, k: nat)
    requires FullMesh(s, n) && k <= n
    ensures 2 * LocalTotal(s, k) == k * (k - 1)
    ensures 2 * RemoteTotal(s, k) == k * (2 * n - k - 1)
  {
    if k > 0 {
      MeshTotals(s, n, k - 1);
      DoneCounts(s, n, k - 1);
      Triangle(n, k);
    }
  }

  lemma Triangle(n: int, k: int)
    ensures k * (k - 1) == (k - 1) * (k - 2) + 2 * (k - 1)
    ensures k * (2 * n - k - 1) == (k - 1) * (2 * n - (k - 1) - 1) + 2 * (n - k)
  {
  }

  /** N(N-1)/2 completions on either side. */
  predicate CompletionsCounted(s: State, n: nat) {
    2 * LocalTotal(s, n) == 2 * RemoteTotal(s, n) == n * (n - 1)
  }

  lemma MeshCounted(s: State, n: nat)
    requires FullMesh(s, n)
    ensures CompletionsCounted(s, n)
  {
    MeshTotals(s, n, n);
    assert 2 * n - n - 1 == n - 1;
  }

  lemma QuiescentMesh(s: State)
    requires Quiescent(s) && Listening(s) && MeshInv(s) && Launched(s) && DoneInv(s)
    ensures FullMesh(s, s.hub.gen)
  {
    forall c, r: Id | c in s.nodes
      ensures s.nodes[c].localDone[r] == (if r < c then 1 else 0)
      ensures s.nodes[c].remoteDone[r] == (if c < r < s.hub.gen then 1 else 0)
    {
      assert DoneAt(s, c, r);
      if r in s.nodes {
        PairCompleted(s, c, r);
        PairCompleted(s, r, c);
      } else {
        NoChainToStrangers(s, c, r);
      }
    }
  }

  lemma NoChainToStrangers(s: State, c: Id, r: Id)
    requires ChainInv(s) && r !in s.nodes
    ensures !LocallyDone(s, Pair(c, r)) && !RemotelyDone(s, Pair(r, c))
  {
  }

  /** Complete mesh at rest. When peers start one at a time, nobody leaves or fails, no full channel
      refuses a signal and no listener lags behind the ring, every run that comes to rest with N
      peers has, per pair, one local completion at the newer peer and one remote completion at the
      older one and no others: N(N-1)/2 of each. */
  lemma CompleteMesh(ss: seq<State>, es: seq<Event>, i: nat)
    requires IsRun(ss, es) && Serial(ss, es) && Calm(ss, es) && i < |ss| && Quiescent(ss[i])
    ensures FullMesh(ss[i], ss[i].hub.gen) && CompletionsCounted(ss[i], ss[i].hub.gen)
  {
    MeshAlways(ss, es, i);
    ListeningAlways(ss, es, i);
    DoneAlways(ss, es, i);
    LaunchedAlways(ss, es, i);
    QuiescentMesh(ss[i]);
    MeshCounted(ss[i], ss[i].hub.gen);
  }

  /** ... and then everybody runs, is registered, and has discovered everybody else. */
  lemma EverybodyKnown(ss: seq<State>, es: seq<Event>, i: nat, c: Id)
    requires IsRun(ss, es) && Serial(ss, es) && Calm(ss, es) && i < |ss| && Quiescent(ss[i]) && c in ss[i].nodes
    ensures Active(ss[i], c) && ss[i].nodes[c].core.discovered == Discover(ss[i].hub, c) == ss[i].nodes.Keys - {c}
  {
    MeshAlways(ss, es, i);
    ListeningAlways(ss, es, i);
    KnowsItsView(ss[i], c);
    Convergence.DiscoveryConverges(ss, es, i, c);
    AllRegistered(ss[i]);
  }

  /** Rest is always reached: from any point of any run the system can be left to itself until
      nothing more happens by itself. */
  lemma {:induction false} RestIsReached(ss: seq<State>, es: seq<Event>) returns (ss': seq<State>, es': seq<Event>)
    requires IsRun(ss, es)
    ensures IsRun(ss', es') && ss <= ss' && es <= es' && Quiescent(ss'[|es'|])
    ensures forall i :: |es| <= i < |es'| ==> !es'[i].Advertise? && !es'[i].Stop? && !es'[i].Teardown? && !es'[i].Drop?
    ensures |es'| - |es| <= Termination.Rank(ss[|es|])
    decreases Termination.Rank(ss[|es|])
  {
    if Quiescent(ss[|es|]) {
      ss', es' := ss, es;
    } else {
      var e :| Enabled(ss[|es|], e) && !e.Advertise? && !e.Stop? && !e.Teardown? && !e.Drop?;
      OneMoreLowers(ss, es, e);
      ss', es' := RestIsReached(ss + [Apply(ss[|es|], e)], es + [e]);
    }
  }

  lemma OneMoreLowers(ss: seq<State>, es: seq<Event>, e: Event)
    requires IsRun(ss, es) && Enabled(ss[|es|], e) && !e.Advertise? && !e.Teardown?
    ensures IsRun(ss + [Apply(ss[|es|], e)], es + [e])
    ensures Termination.Rank(Apply(ss[|es|], e)) < Termination.Rank(ss[|es|])
  {
    OneMoreEvent(ss, es, e);
    LastLowers(ss, es, e);
  }

  lemma OneMoreEvent(ss: seq<State>, es: seq<Event>, e: Event)
    requires IsRun(ss, es) && Enabled(ss[|es|], e)
    ensures IsRun(ss + [Apply(ss[|es|], e)], es + [e])
  {
  }

  lemma LastLowers(ss: seq<State>, es: seq<Event>, e: Event)
    requires IsRun(ss, es) && Enabled(ss[|es|], e) && !e.Advertise? && !e.Teardown?
    ensures Termination.Rank(Apply(ss[|es|], e)) < Termination.Rank(ss[|es|])
  {
    ChainsAlways(ss, es, |es|);
    Termination.HeldAlways(ss, es, |es|);
    Termination.EventLowersRank(ss[|es|], e);
  }

  lemma KnowsItsView(s: State, c: Id)
    requires Quiescent(s) && Listening(s) && MeshInv(s) && c in s.nodes
    ensures Active(s, c) && c in s.streams && !s.nodes[c].core.first && Convergence.Unread(s, c) == |s.hub.log|
  {
    AllRunning(s, c);
    assert At(s, c);
    StreamDrained(s, c);
  }

  lemma AllRegistered(s: State)
    requires DiscoveryInv(s) && CalmHub(s)
    ensures s.hub.peers.Keys == s.nodes.Keys
  {
  }
}
