/** What holds of discovery in every state of every run. */
module Convergence {
  import opened Vocabulary
  import opened Channels
  import opened Broadcast
  import opened Server
  import opened System
  import opened Registry
  import opened Discovery
  import Client

  lemma {:induction false} DiscoveryAlways(ss: seq<State>, es: seq<Event>, i: nat)
    requires IsRun(ss, es) && i < |ss|
    ensures DiscoveryInv(ss[i])
  {
    hide Enabled, Apply;
    if i == 0 {
      assert Fold({}, []) == {};
    } else {
      DiscoveryAlways(ss, es, i - 1);
      DiscoveryKept(ss[i - 1], es[i - 1]);
    }
  }

  /** A running client, between its steps and past its first message. */
  predicate Settled(s: State, c: Id) {
    c in s.nodes && s.nodes[c].phase == Running && s.nodes[c].sync.None? && !s.nodes[c].core.first
  }

  /** The changes that a client has not applied yet start here. */
  function Unread(s: State, c: Id): nat
    requires c in s.nodes && c in s.streams
  {
    s.streams[c].start + |s.nodes[c].applied|
  }

  lemma KnowsUnmentioned(s: State, c: Id)
    requires DiscoveryInv(s) && Settled(s, c)
    ensures c in s.streams
    ensures forall id :: !Mentions(s.hub.log, Unread(s, c), id) ==>
      (id in s.nodes[c].core.discovered <==> id in s.hub.peers && id != c)
  {
    assert At(s, c);
  }

  lemma SettledExists(s: State, c: Id)
    requires Settled(s, c)
    ensures c in s.nodes
  {
  }

  lemma KnowsAll(s: State, c: Id)
    requires c in s.nodes && c in s.streams && Unread(s, c) == |s.hub.log|
    requires forall id :: !Mentions(s.hub.log, Unread(s, c), id) ==>
      (id in s.nodes[c].core.discovered <==> id in s.hub.peers && id != c)
    ensures s.nodes[c].core.discovered == Discover(s.hub, c)
  {
    forall id ensures id in s.nodes[c].core.discovered <==> id in Discover(s.hub, c) {
      assert !Mentions(s.hub.log, Unread(s, c), id);
    }
  }

  /** Discovery converges: a peer without unread changes is discovered iff it is registered (and
      not the client itself), and a client without unread changes knows what a discovery request
      would return. */
  lemma DiscoveryConverges(ss: seq<State>, es: seq<Event>, i: nat, c: Id)
    requires IsRun(ss, es) && i < |ss| && Settled(ss[i], c)
    ensures c in ss[i].streams
    ensures forall id :: !Mentions(ss[i].hub.log, Unread(ss[i], c), id) ==>
      (id in ss[i].nodes[c].core.discovered <==> id in ss[i].hub.peers && id != c)
    ensures Unread(ss[i], c) == |ss[i].hub.log| ==> ss[i].nodes[c].core.discovered == Discover(ss[i].hub, c)
  {
    DiscoveryAlways(ss, es, i);
    hide IsRun, DiscoveryInv, Settled, Mentions;
    KnowsUnmentioned(ss[i], c);
    SettledExists(ss[i], c);
    if Unread(ss[i], c) == |ss[i].hub.log| {
      KnowsAll(ss[i], c);
    }
  }

  /** A client once the reply it waits for, if any, has arrived. */
  function AfterReply(node: Node, h: Hub): Node {
    if node.sync.Some? then Discovering(node, h, node.sync.value.reply, node.sync.value.rest, node.sync.value.all) else node
  }

  /** Cutting `step` at its discovery request changes nothing by itself: when the reply arrives at
      once, the client is where an uninterrupted step would have taken it. */
  lemma InterruptedStepIsStep(s: State, c: Id, n: nat)
    requires Enabled(s, StepPeer(c, n)) && s.streams[c].wire[0].Changes? && At(s, c) && HubInv(s.hub)
    ensures var node := AfterReply(OnPeerEvent(s.nodes[c], s.hub, n, s.streams[c].wire[0]), s.hub);
      && node.phase == Running && node.sync.None?
      && (node.core, Ok(())) ==
           Client.Step(s.nodes[c].core, n, Client.Discovered(s.streams[c].wire[0].list), [Ok(Discover(s.hub, c))], Ok(()))
  {
    StepPeerKept(s, c, n);
    OneInterruption(s.nodes[c], s.hub, n, s.streams[c].wire[0].list);
  }

  lemma OneInterruption(node: Node, h: Hub, n: nat, changes: seq<Change>)
    requires n in node.core.tasks && node.core.tasks[n].PeerListener? && node.sync.None?
    requires var node' := OnPeerEvent(node, h, n, Changes(changes)); node'.sync.Some? ==> node'.sync.value.rest == []
    ensures var node' := AfterReply(OnPeerEvent(node, h, n, Changes(changes)), h);
      node'.sync.None? && node'.phase == node.phase && (node'.core, Ok(())) ==
        Client.Step(node.core, n, Client.Discovered(changes), [Ok(Discover(h, node.core.id))], Ok(()))
  {
    var heard := Client.Queue(Client.Done(node.core, n), Client.PeerListener);
    var (d, rest) := Client.RunChanges(node.core.discovered, changes);
    var view := Discover(h, node.core.id);
    Client.RunChangesThenResume(node.core.discovered, changes, [Ok(view)]);
    if rest.Some? {
      assert rest.value == [];
      assert Client.RunChanges(view, []) == (view, None) && Client.ApplyAll(view, [], []) == (view, Ok(()));
      assert heard.(discovered := d).(discovered := view) == heard.(discovered := view);
    }
  }

  /** The target is registered and listens, but its receiver is gone. */
  predicate HasGone(h: Hub, side: Side, id: Id) {
    id in h.peers && side in h.peers[id] && Key(side, id) in h.chans && !h.chans[Key(side, id)].alive
  }

  /** What an event broadcasts: the addition of the peer that advertises; a removal on every teardown,
      whether or not the peer is registered; and the removal of a peer that a signal finds gone. */
  ghost function Announced(s: State, e: Event): seq<Change>
    requires Enabled(s, e)
  {
    match e
    case Advertise => [Add(s.hub.gen)]
    case Teardown(id) => [Remove(id)]
    case StepCreateOffer(c, n, _) =>
      var r := TaskOf(s, c, n).remote;
      if r !in s.nodes[c].conns && HasGone(s.hub, OfferSide, r) then [Remove(r)] else []
    case StepReceiveOffer(c, n, _) =>
      var r := TaskOf(s, c, n).remote;
      if r !in s.nodes[c].conns && HasGone(s.hub, AnswerSide, r) then [Remove(r)] else []
    case _ => []
  }

  ghost predicate Broadcasts(h: Hub, h': Hub, changes: seq<Change>) {
    && h'.log == h.log + changes
    && h'.peers.Keys == if changes == [] then h.peers.Keys
                        else if changes[0].Add? then h.peers.Keys + {changes[0].id} else h.peers.Keys - {changes[0].id}
  }

  lemma CreateOfferBroadcasts(s: State, c: Id, n: nat, offer: Payload)
    requires Enabled(s, StepCreateOffer(c, n, offer))
    ensures Broadcasts(s.hub, DoStepCreateOffer(s, c, n, offer).hub, Announced(s, StepCreateOffer(c, n, offer)))
  {
    hide Client.Step;
  }

  lemma ReceiveOfferBroadcasts(s: State, c: Id, n: nat, answer: Payload)
    requires Enabled(s, StepReceiveOffer(c, n, answer))
    ensures Broadcasts(s.hub, DoStepReceiveOffer(s, c, n, answer).hub, Announced(s, StepReceiveOffer(c, n, answer)))
  {
    hide Client.Step;
  }

  lemma EventBroadcasts(s: State, e: Event)
    requires HubInv(s.hub) && Enabled(s, e)
    ensures Broadcasts(s.hub, Apply(s, e).hub, Announced(s, e))
  {
    hide HubInv;
    if AtClient(e) {
      LocalKeepsHub(s, e);
    } else {
      match e
      case Advertise => AdvertiseBroadcasts(s);
      case StepCreateOffer(c, n, offer) => CreateOfferBroadcasts(s, c, n, offer);
      case StepReceiveOffer(c, n, answer) => ReceiveOfferBroadcasts(s, c, n, answer);
      case StepListener(c, n) => ListenerHub(s, c, n);
      case _ =>
    }
  }

  lemma AdvertiseBroadcasts(s: State)
    requires HubInv(s.hub) && s.hub.gen < ID_SPACE
    ensures Broadcasts(s.hub, DoAdvertise(s).hub, [Add(s.hub.gen)])
  {
  }

  lemma RunBroadcasts(ss: seq<State>, es: seq<Event>, k: nat)
    requires IsRun(ss, es) && k < |es|
    ensures Broadcasts(ss[k].hub, ss[k + 1].hub, Announced(ss[k], es[k]))
  {
    DiscoveryAlways(ss, es, k);
    EventBroadcasts(ss[k], es[k]);
  }

  /** Every event broadcasts what `Announced` says. The registry is the fold of everything broadcast,
      removals of unregistered peers included, and each listener's snapshot folded with all later
      changes is the registry without the listener. */
  lemma RegistryIsFold(ss: seq<State>, es: seq<Event>, i: nat, c: Id)
    requires IsRun(ss, es) && i < |ss|
    ensures forall k: nat :: k < i ==>
      Enabled(ss[k], es[k]) && ss[k + 1].hub.log == ss[k].hub.log + Announced(ss[k], es[k])
    ensures ss[i].hub.peers.Keys == Fold({}, ss[i].hub.log)
    ensures c in ss[i].streams ==>
      var st := ss[i].streams[c];
      st.start <= |ss[i].hub.log| &&
      Fold(Elements(st.order), ss[i].hub.log[st.start..]) - {c} == ss[i].hub.peers.Keys - {c}
      && c !in Fold(Elements(st.order), ss[i].hub.log[st.start..])
  {
    DiscoveryAlways(ss, es, i);
    forall k: nat | k < i ensures Broadcasts(ss[k].hub, ss[k + 1].hub, Announced(ss[k], es[k])) {
      RunBroadcasts(ss, es, k);
    }
    hide Announced, Enabled, Apply;
    if c in ss[i].streams {
      assert At(ss[i], c);
      SnapshotFolds(ss[i].streams[c], ss[i].hub, c);
    }
  }

  lemma SnapshotFolds(st: PeerStream, h: Hub, c: Id)
    requires HubInv(h) && Subscribed(c, st, h.log)
    ensures var folded := Fold(Elements(st.order), h.log[st.start..]);
      folded - {c} == h.peers.Keys - {c} && c !in folded
  {
    var before, after := h.log[..st.start], h.log[st.start..];
    assert h.log == before + after;
    FoldConcat({}, before, after);
    forall k | 0 <= k < |after| ensures after[k] != Add(c) {
      AddedOnce(h.log, h.gen, st.start, st.start + k, c);
    }
    FoldApart(Fold({}, before), after, c);
    ListedSet(st.order, Fold({}, before) - {c});
  }

  lemma ListedSet(order: seq<Id>, ids: set<Id>)
    requires Lists(order, ids)
    ensures Elements(order) == ids
  {
  }

  /** Folding a log that never adds a peer commutes with leaving that peer out. */
  lemma {:induction false} FoldApart(base: set<Id>, log: seq<Change>, c: Id)
    requires forall k :: 0 <= k < |log| ==> log[k] != Add(c)
    ensures Fold(base - {c}, log) == Fold(base, log) - {c}
    decreases |log|
  {
    if log != [] {
      FoldApart(base, log[..|log| - 1], c);
    }
  }

  /** No silent loss. What a client has applied is the run of the log right after its snapshot.
      Once a broadcast it has not been sent is evicted from the ring, the next event it is sent is
      a data-loss error, which stays the last one. */
  lemma NoSilentLoss(ss: seq<State>, es: seq<Event>, i: nat, c: Id)
    requires IsRun(ss, es) && i < |ss| && c in ss[i].streams
    ensures c in ss[i].nodes
    ensures var s := ss[i];
      var st, node, log := s.streams[c], s.nodes[c], s.hub.log;
      && st.start + |node.applied| <= st.pos <= |log|
      && node.applied == log[st.start..st.start + |node.applied|]
      && (st.pos < Oldest(log) && !st.ended ==>
            DoPumpPeer(s, c).streams[c] == st.(wire := st.wire + [DataLoss], ended := true))
      && (node.phase != Stopped && st.ended ==> st.wire != [] && st.wire[|st.wire| - 1] == DataLoss)
  {
    DiscoveryAlways(ss, es, i);
    assert At(ss[i], c);
    WireFacts(c, ss[i].nodes[c], ss[i].streams[c], ss[i].hub);
  }

  /** A client that reads the data-loss error stops, having applied all that preceded the gap. */
  lemma LossStopsClient(ss: seq<State>, es: seq<Event>, i: nat, c: Id, n: nat)
    requires IsRun(ss, es) && i < |ss| && Enabled(ss[i], StepPeer(c, n)) && ss[i].streams[c].wire[0] == DataLoss
    ensures ss[i].streams[c].ended && Unread(ss[i], c) == ss[i].streams[c].pos
    ensures var s' := Apply(ss[i], StepPeer(c, n));
      s'.nodes[c].phase == Stopped && s'.nodes[c].applied == ss[i].nodes[c].applied
  {
    DiscoveryAlways(ss, es, i);
    assert At(ss[i], c);
    WireFacts(c, ss[i].nodes[c], ss[i].streams[c], ss[i].hub);
  }

  lemma WireFacts(c: Id, node: Node, st: PeerStream, h: Hub)
    requires StreamOk(c, node, st, h.log)
    ensures st.pos < Oldest(h.log) && !st.ended ==> Pump(st, h.log) == st.(wire := st.wire + [DataLoss], ended := true)
    ensures node.phase != Stopped && st.ended ==> st.wire != [] && st.wire[|st.wire| - 1] == DataLoss
    ensures node.phase != Stopped && st.wire != [] && st.wire[0] == DataLoss ==> st.ended && st.start + |node.applied| == st.pos
  {
  }

  /** Once a stream has ended, nothing more is ever sent on it: its position no longer moves. */
  lemma {:induction false} EndedForGood(ss: seq<State>, es: seq<Event>, i: nat, j: nat, c: Id)
    requires IsRun(ss, es) && i <= j < |ss| && c in ss[i].streams && ss[i].streams[c].ended
    ensures c in ss[j].streams && ss[j].streams[c].ended && ss[j].streams[c].pos == ss[i].streams[c].pos
    ensures ss[j].streams[c].start == ss[i].streams[c].start
    decreases j
  {
    hide DiscoveryInv, Enabled, Apply;
    if i < j {
      EndedForGood(ss, es, i, j - 1, c);
      DiscoveryAlways(ss, es, j - 1);
      EndedOnce(ss[j - 1], es[j - 1], c);
    }
  }

  lemma EndedOnce(s: State, e: Event, c: Id)
    requires DiscoveryInv(s) && Enabled(s, e) && c in s.streams && s.streams[c].ended
    ensures c in Apply(s, e).streams && Apply(s, e).streams[c].ended
    ensures Apply(s, e).streams[c].pos == s.streams[c].pos && Apply(s, e).streams[c].start == s.streams[c].start
  {
    hide HubInv, StreamOk, DiscoveryOk, NodeOk;
    assert At(s, c);
    if ChainEvent(e) {
      ChainEventUndisturbed(s, e);
    } else if ActorOf(e).None? && !e.Advertise? {
      EventsOnTheSide(s, e);
    }
  }

  /** The place in the log where a peer was added. */
  ghost function AddedAt(log: seq<Change>, id: Id): (i: nat)
    requires Add(id) in log
    ensures i < |log| && log[i] == Add(id)
  {
    var i :| 0 <= i < |log| && log[i] == Add(id);
    i
  }

  /** A peer is in a snapshot iff it advertised before, and was not removed before. */
  lemma InSnapshot(s: State, c: Id, x: Id)
    requires DiscoveryInv(s) && c in s.streams && x != c && Add(x) in s.hub.log
    requires forall i :: 0 <= i < s.streams[c].start && i < |s.hub.log| ==> s.hub.log[i] != Remove(x)
    ensures x in s.streams[c].order <==> AddedAt(s.hub.log, x) < s.streams[c].start
  {
    assert At(s, c);
    var log, start, at := s.hub.log, s.streams[c].start, AddedAt(s.hub.log, x);
    if at < start {
      forall i | at + 1 <= i < start ensures log[..start][i].id != x {
        assert log[i] != Add(x);
      }
      FoldLastMention(log[..start], at);
    } else {
      forall i | 0 <= i < start ensures log[..start][i].id != x {
        assert log[i] != Add(x);
      }
      FoldUnmentioned(log[..start], 0, x);
    }
  }

  /** Two peers that opened their peer listeners, neither removed before the later open: at least
      one initial list contains the other, and both do iff each advertised before the other opened. */
  lemma SnapshotOrientation(ss: seq<State>, es: seq<Event>, i: nat, a: Id, b: Id)
    requires IsRun(ss, es) && i < |ss| && a != b && a in ss[i].streams && b in ss[i].streams
    requires forall k, x :: 0 <= k < |ss[i].hub.log| && ss[i].hub.log[k] == Remove(x) && x in {a, b} ==>
      k >= ss[i].streams[a].start && k >= ss[i].streams[b].start
    ensures Add(a) in ss[i].hub.log && Add(b) in ss[i].hub.log
    ensures a in ss[i].streams[b].order || b in ss[i].streams[a].order
    ensures a in ss[i].streams[b].order && b in ss[i].streams[a].order <==>
      AddedAt(ss[i].hub.log, a) < ss[i].streams[b].start && AddedAt(ss[i].hub.log, b) < ss[i].streams[a].start
  {
    hide HubInv, StreamOk, DiscoveryOk, NodeOk, Enabled, Apply;
    DiscoveryAlways(ss, es, i);
    var s := ss[i];
    assert At(s, a) && At(s, b);
    AddedBeforeOpening(s, a);
    AddedBeforeOpening(s, b);
    InSnapshot(s, a, b);
    InSnapshot(s, b, a);
  }

  lemma AddedBeforeOpening(s: State, c: Id)
    requires DiscoveryInv(s) && c in s.streams
    ensures Add(c) in s.hub.log && AddedAt(s.hub.log, c) < s.streams[c].start
  {
  }

  /** Identities are used once: registered IDs were generated, and a generated ID that is not
      registered never comes back. */
  lemma {:induction false} NoReturn(ss: seq<State>, es: seq<Event>, i: nat, j: nat, id: Id)
    requires IsRun(ss, es) && i <= j < |ss|
    requires id < ss[i].hub.gen && id !in ss[i].hub.peers
    ensures id < ss[j].hub.gen && id !in ss[j].hub.peers
    decreases j
  {
    hide Enabled, Apply, At, HubInv, Evolves;
    if i < j {
      NoReturn(ss, es, i, j - 1, id);
      DiscoveryAlways(ss, es, j - 1);
      HubKept(ss[j - 1], es[j - 1]);
      EvolvesWithoutReturn(ss[j - 1].hub, ss[j].hub, id);
    }
  }

  lemma EvolvesWithoutReturn(h: Hub, h': Hub, id: Id)
    requires HubInv(h) && HubInv(h') && Evolves(h, h') && h.gen <= h'.gen && id < h.gen && id !in h.peers
    ensures id !in h'.peers
  {
  }

  /** While fewer than 2^64 IDs were generated, advertising issues a new ID; and a listener that
      was ever opened is refused a second time, leaving everything as it was. */
  lemma IdentitiesUsedOnce(ss: seq<State>, es: seq<Event>, i: nat)
    requires IsRun(ss, es) && i < |ss|
    ensures forall id :: id in ss[i].hub.peers ==> id < ss[i].hub.gen
    ensures ss[i].hub.gen < 0x1_0000_0000_0000_0000 ==> Admit(ss[i].hub).1 == Ok(ss[i].hub.gen)
    ensures forall key :: key in ss[i].hub.chans ==>
      OpenListener(ss[i].hub, key.side, key.id) == (ss[i].hub, Err(FailedPrecondition))
  {
    DiscoveryAlways(ss, es, i);
  }

  /** After 2^64 advertisements the counter wraps around, and advertising fails exactly if the
      next ID is still registered. */
  lemma AdvertiseFailsIff(h: Hub)
    requires ChannelsMatch(h)
    ensures Admit(h).1.Err? <==> h.gen >= 0x1_0000_0000_0000_0000 && h.gen % 0x1_0000_0000_0000_0000 in h.peers
  {
  }
}
