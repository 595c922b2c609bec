/** A run without any departure or failure in which a peer is nevertheless lost: it lags behind. */
module Lagging {
  import opened Vocabulary
  import opened Broadcast
  import opened System
  import opened Connections
  import opened Chains
  import opened Stopping
  import opened CalmRuns
  import opened Registry
  import opened Discovery
  import opened Mesh
  import opened Limits
  import opened Runs
  import opened Startups
  import Client

  /** The first peer's stream has lagged behind: it is sent a data-loss error. */
  lemma FirstPeerLags(s: State, n: nat) returns (s1: State)
    requires AllStarted(s, n) && 0 in s.nodes && n >= 18
    ensures Steps(s, PumpPeer(0), s1)
    ensures s1.streams == s.streams[0 := UNREAD.(wire := [Changes([]), DataLoss], ended := true)] && s1.nodes == s.nodes && s1.hub == s.hub
  {
    s1 := DoPumpPeer(s, 0);
    assert UNREAD.wire + [DataLoss] == [Changes([]), DataLoss];
  }

  /** It reads its empty initial list ... */
  lemma FirstPeerReads(s: State) returns (s1: State)
    requires 0 in s.nodes && s.nodes[0] == Fresh(0) && 0 in s.streams && s.streams[0].wire == [Changes([]), DataLoss]
    ensures Steps(s, StepPeer(0, 0), s1) && s1.hub == s.hub
    ensures 0 in s1.streams && s1.streams[0].wire == [DataLoss] && Active(s1, 0) && HasTask(s1, 0, 3, Client.PeerListener)
    ensures s1.nodes[0].remoteDone == multiset{}
  {
    s1 := DoStepPeer(s, 0, 0);
    assert AddedIds([]) == [];
    assert [Changes([]), DataLoss][1..] == [DataLoss];
  }

  /** ... and then stops on the error. */
  lemma FirstPeerStops(s: State) returns (s1: State)
    requires 0 in s.streams && s.streams[0].wire == [DataLoss] && Active(s, 0) && HasTask(s, 0, 3, Client.PeerListener)
    requires s.nodes[0].remoteDone == multiset{}
    ensures Steps(s, StepPeer(0, 3), s1) && s1.hub == s.hub && ReadsLoss(s, StepPeer(0, 3), 0) && IsLost(s1)
  {
    s1 := DoStepPeer(s, 0, 3);
  }

  /** The first peer has stopped, and no chain towards it has completed there. */
  ghost predicate IsLost(s: State) {
    0 in s.nodes && s.nodes[0].phase == Stopped && s.nodes[0].remoteDone == multiset{}
  }

  /** A complete mesh takes a completion at the first peer. */
  lemma NoMeshWithout(s: State, n: nat)
    requires n >= 2 && IsLost(s)
    ensures !FullMesh(s, n)
  {
    assert s.nodes[0].remoteDone[1] == 0;
  }

  /** From 18 peers on a listener can lag behind although all channels have room: there is a run
      with serialised starts, which nobody leaves, in which the first peer reads a data-loss error
      before anybody has made an offer, and which comes to rest without a complete mesh. */
  lemma LaggingPeerIsLost(n: nat) returns (ss: seq<State>, es: seq<Event>, i: nat)
    requires 18 <= n <= ID_SPACE
    ensures Rested(ss, es, n) && !FullMesh(ss[|es|], n)
    ensures i < |es| && ReadsLoss(ss[i], es[i], 0)
    ensures forall k :: 0 <= k < i ==> Starting(es[k]) || es[k].PumpPeer? || es[k].StepPeer?
  {
    hide *;
    var s2, s3;
    ss, es, s2, s3 := FirstIsLost(n);
    Lengths(ss, es, s3);
    i := |es| - 1;
    var ss', es' := ComesToRest(ss, es, s3);
    assert ss'[i] == s2 && ss'[i + 1] == s3 && es'[i] == StepPeer(0, 3);
    LostForGood(ss', es', n, i + 1);
    NoMeshWithout(ss'[|es'|], n);
    ss, es := ss', es';
  }

  lemma LostForGood(ss: seq<State>, es: seq<Event>, n: nat, i: nat)
    requires Rested(ss, es, n) && i <= |es| && |ss| == |es| + 1 && IsLost(ss[i])
    ensures IsLost(ss[|es|])
  {
    StoppedForGood(ss, es, i, |es|, 0);
  }

  lemma FirstIsLost(n: nat) returns (ss: seq<State>, es: seq<Event>, s2: State, s3: State)
    requires 18 <= n <= ID_SPACE
    ensures SerialRun(ss, es, s3) && |es| > 0 && s3.hub.gen == n && IsLost(s3)
    ensures ss[|es| - 1] == s2 && es[|es| - 1] == StepPeer(0, 3) && Steps(s2, StepPeer(0, 3), s3) && ReadsLoss(s2, StepPeer(0, 3), 0)
    ensures forall e :: e in es ==> Starting(e) || e.PumpPeer? || e.StepPeer?
  {
    hide *;
    var s, s1;
    ss, es, s := SerialStarts(n);
    StartsAreCalm(ss, es, s);
    s1, s2, s3 := FirstPeerIsLost(s, n);
    Lengths(ss, es, s);
    ss, es := Longer(ss, es, s, PumpPeer(0), s1);
    ss, es := Longer(ss, es, s1, StepPeer(0, 0), s2);
    ss, es := Longer(ss, es, s2, StepPeer(0, 3), s3);
  }

  lemma FirstPeerIsLost(s: State, n: nat) returns (s1: State, s2: State, s3: State)
    requires AllStarted(s, n) && MeshInv(s) && n >= 18
    ensures Steps(s, PumpPeer(0), s1) && Steps(s1, StepPeer(0, 0), s2) && Steps(s2, StepPeer(0, 3), s3)
    ensures ReadsLoss(s2, StepPeer(0, 3), 0) && IsLost(s3) && s3.hub.gen == n
  {
    hide Steps, IsLost, HubInv, ChainInv, ConnInv, CalmHub, SerialInv;
    s1 := FirstPeerLags(s, n);
    s2 := FirstPeerReads(s1);
    s3 := FirstPeerStops(s2);
  }
}
