/** Runs in which peers start one after the other and do nothing yet, and what becomes of them. */
module Startups {
  import opened Vocabulary
  import opened Channels
  import opened Broadcast
  import opened Server
  import opened System
  import opened Registry
  import opened Discovery
  import opened Connections
  import opened CalmRuns
  import opened Mesh
  import opened Limits
  import opened Runs
  import Convergence
  import Client

  /** A client that has started and not been stepped. */
  function Fresh(c: Id): Node {
    NewNode(c).(phase := Running, core := Client.NewCore(c))
  }

  /** The stream of the very first peer, of which it has not read anything. */
  const UNREAD: PeerStream := PeerStream([], 1, 1, [Changes([])], false)

  ghost predicate NothingSent(h: Hub) {
    forall key :: key in h.chans ==> h.chans[key] == NewChan()
  }

  /** `n` peers have started, and none has been stepped since. */
  ghost predicate AllStarted(s: State, n: nat) {
    && s.hub.gen == n && |s.hub.log| == n && NothingSent(s.hub)
    && (forall c :: c in s.nodes ==> s.nodes[c] == Fresh(c))
    && (n > 0 ==> 0 in s.streams && s.streams[0] == UNREAD)
  }

  /** Peer `n` is starting and has got to `phase`, with these sides open. */
  ghost predicate Joining(s: State, n: nat, phase: Phase, sides: set<Side>) {
    && s.hub.gen == n + 1 && |s.hub.log| == n + 1 && NothingSent(s.hub)
    && (forall c :: c in s.nodes && c != n ==> s.nodes[c] == Fresh(c))
    && n in s.nodes && s.nodes[n] == NewNode(n).(phase := phase) && n in s.hub.peers && s.hub.peers[n] == sides
    && (n > 0 || phase != Advertised ==> 0 in s.streams && s.streams[0] == UNREAD)
  }

  predicate Starting(e: Event) {
    e.Advertise? || e.OpenPeer? || e.Open?
  }

  /** A run with serialised starts, which nobody leaves, to the state `s`. */
  ghost predicate SerialRun(ss: seq<State>, es: seq<Event>, s: State) {
    RunTo(ss, es, s) && Serial(ss, es) && NobodyLeaves(es)
  }

  lemma EmptyRun()
    ensures SerialRun([INITIAL], [], INITIAL)
  {
  }

  lemma Longer(ss: seq<State>, es: seq<Event>, s: State, e: Event, s': State) returns (ss': seq<State>, es': seq<Event>)
    requires SerialRun(ss, es, s) && Steps(s, e, s') && !e.Stop? && !e.Teardown? && !e.Drop?
    requires e.Advertise? ==> forall c :: c in s.nodes ==> s.nodes[c].phase in {Running, Stopped}
    ensures SerialRun(ss', es', s') && es' == es + [e] && ss' == ss + [s']
  {
    Extend(ss, es, s, e, s');
    ss', es' := ss + [s'], es + [e];
    hide Steps;
  }

  lemma Lengths(ss: seq<State>, es: seq<Event>, s: State)
    requires SerialRun(ss, es, s)
    ensures |ss| == |es| + 1 && ss[|es|] == s
  {
  }

  lemma Joins(s: State, n: nat) returns (s': State)
    requires n !in s.hub.peers && n !in s.streams && n !in s.nodes && AllStarted(s, n) && n < ID_SPACE
    ensures Steps(s, Advertise, s') && Joining(s', n, Advertised, {}) && Discover(s'.hub, n) == s.hub.peers.Keys
  {
    s' := DoAdvertise(s);
  }

  lemma OpensPeer(s: State, n: nat, order: seq<Id>) returns (s': State)
    requires Joining(s, n, Advertised, {}) && Lists(order, Discover(s.hub, n)) && (n == 0 ==> order == [])
    ensures Steps(s, OpenPeer(n, order), s') && Joining(s', n, PeerOpen, {})
  {
    s' := DoOpenPeer(s, n, order);
    assert Adds([]) == [];
  }

  lemma OpensOffers(s: State, n: nat) returns (s': State)
    requires Joining(s, n, PeerOpen, {})
    ensures Steps(s, Open(n, OfferSide), s') && Joining(s', n, OfferOpen, {OfferSide})
  {
    s' := DoOpen(s, n, OfferSide);
  }

  lemma OpensAnswers(s: State, n: nat) returns (s': State)
    requires Joining(s, n, OfferOpen, {OfferSide})
    ensures Steps(s, Open(n, AnswerSide), s') && AllStarted(s', n + 1)
  {
    s' := DoOpen(s, n, AnswerSide);
  }

  lemma NobodyToList(h: Hub, order: seq<Id>)
    requires HubInv(h) && h.gen == 0 && Lists(order, h.peers.Keys)
    ensures order == []
  {
    ListSize(order);
    assert Elements(order) <= Below(0);
  }

  /** One more peer starts, from its advertisement to its last listener. */
  lemma OneStart(s: State, n: nat, order: seq<Id>) returns (s1: State, s2: State, s3: State, s4: State)
    requires n !in s.hub.peers && n !in s.streams && n !in s.nodes && AllStarted(s, n) && n < ID_SPACE
    requires Lists(order, s.hub.peers.Keys) && (n == 0 ==> order == [])
    ensures Steps(s, Advertise, s1) && Steps(s1, OpenPeer(n, order), s2)
    ensures Steps(s2, Open(n, OfferSide), s3) && Steps(s3, Open(n, AnswerSide), s4)
    ensures AllStarted(s4, n + 1)
  {
    hide Steps, Joining, AllStarted, Lists;
    s1 := Joins(s, n);
    s2 := OpensPeer(s1, n, order);
    s3 := OpensOffers(s2, n);
    s4 := OpensAnswers(s3, n);
  }

  lemma NextIsNew(s: State, order: seq<Id>)
    requires DiscoveryInv(s) && Lists(order, s.hub.peers.Keys)
    ensures s.hub.gen !in s.hub.peers && s.hub.gen !in s.streams && s.hub.gen !in s.nodes && (s.hub.gen == 0 ==> order == [])
  {
    if s.hub.gen == 0 {
      NobodyToList(s.hub, order);
    }
  }

  lemma NextStart(ss: seq<State>, es: seq<Event>, s: State, n: nat) returns (order: seq<Id>, s1: State, s2: State, s3: State, s4: State)
    requires SerialRun(ss, es, s) && AllStarted(s, n) && n < ID_SPACE
    ensures Steps(s, Advertise, s1) && Steps(s1, OpenPeer(n, order), s2)
    ensures Steps(s2, Open(n, OfferSide), s3) && Steps(s3, Open(n, AnswerSide), s4)
    ensures AllStarted(s4, n + 1) && forall c :: c in s.nodes ==> s.nodes[c].phase == Running
  {
    hide Steps, HubInv, NothingSent;
    order := SomeListing(s.hub.peers.Keys);
    Convergence.DiscoveryAlways(ss, es, |es|);
    NextIsNew(s, order);
    s1, s2, s3, s4 := OneStart(s, n, order);
  }

  lemma StartsNext(ss: seq<State>, es: seq<Event>, s: State, n: nat) returns (ss': seq<State>, es': seq<Event>, s': State)
    requires SerialRun(ss, es, s) && AllStarted(s, n) && n < ID_SPACE && forall e :: e in es ==> Starting(e)
    ensures SerialRun(ss', es', s') && AllStarted(s', n + 1) && forall e :: e in es' ==> Starting(e)
  {
    hide Steps, SerialRun, AllStarted;
    var order, s1, s2, s3, s4 := NextStart(ss, es, s, n);
    ss', es' := Longer(ss, es, s, Advertise, s1);
    ss', es' := Longer(ss', es', s1, OpenPeer(n, order), s2);
    ss', es' := Longer(ss', es', s2, Open(n, OfferSide), s3);
    ss', es' := Longer(ss', es', s3, Open(n, AnswerSide), s4);
    s' := s4;
  }

  lemma {:induction false} SerialStarts(n: nat) returns (ss: seq<State>, es: seq<Event>, s: State)
    requires n <= ID_SPACE
    ensures SerialRun(ss, es, s) && AllStarted(s, n) && forall e :: e in es ==> Starting(e)
  {
    if n == 0 {
      ss, es, s := [INITIAL], [], INITIAL;
    } else {
      ss, es, s := SerialStarts(n - 1);
      ss, es, s := StartsNext(ss, es, s, n - 1);
    }
  }

  /** Nothing has gone wrong while peers start. */
  lemma StartsAreCalm(ss: seq<State>, es: seq<Event>, s: State)
    requires SerialRun(ss, es, s) && forall e :: e in es ==> Starting(e)
    ensures MeshInv(s) && forall c: Id :: c in s.nodes <==> c < s.hub.gen
  {
    forall i: nat | i < |es| ensures Untroubled(ss[i], es[i]) {
      assert es[i] in es;
    }
    MeshAlways(ss, es, |es|);
  }

  /** Left to itself, such a run comes to rest with the same peers. */
  lemma ComesToRest(ss: seq<State>, es: seq<Event>, s: State) returns (ss': seq<State>, es': seq<Event>)
    requires SerialRun(ss, es, s)
    ensures Rested(ss', es', s.hub.gen) && |ss'| == |es'| + 1 && ss <= ss' && es <= es'
  {
    ss', es' := RestIsReached(ss, es);
    forall e | e in es' ensures !e.Stop? && !e.Teardown? && !e.Drop? {
      var i: nat :| i < |es'| && es'[i] == e;
      assert i < |es| ==> es'[i] in es;
    }
    hide Quiescent, Enabled, Apply;
    assert ss'[|es|] == s;
    SameNumber(ss', es', |es|, |es'|);
  }

  lemma {:induction false} SameNumber(ss: seq<State>, es: seq<Event>, i: nat, j: nat)
    requires IsRun(ss, es) && i <= j < |ss| && forall k :: i <= k < j ==> !es[k].Advertise?
    ensures ss[j].hub.gen == ss[i].hub.gen
    decreases j
  {
    hide *;
    if i < j {
      SameNumber(ss, es, i, j - 1);
      SameNumberStep(ss, es, j - 1);
    }
  }

  lemma SameNumberStep(ss: seq<State>, es: seq<Event>, i: nat)
    requires IsRun(ss, es) && i + 1 < |ss| && !es[i].Advertise?
    ensures ss[i + 1].hub.gen == ss[i].hub.gen
  {
    Convergence.DiscoveryAlways(ss, es, i);
    hide HubInv, Apply, Enabled;
    GenStays(ss[i], es[i]);
  }
}
