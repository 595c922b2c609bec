/** Peer discovery: what a client has applied, what is still on its way, and why the two always
    add up to the registry. */
module Discovery {
  import opened Vocabulary
  import opened Broadcast
  import opened Server
  import opened System
  import opened Registry
  import Client

  ghost predicate Mentions(log: seq<Change>, from: nat, id: Id) {
    exists i :: from <= i < |log| && log[i].id == id
  }

  /** Without a later mention, membership is decided by the earlier log. */
  lemma {:induction false} FoldUnmentioned(log: seq<Change>, from: nat, id: Id)
    requires from <= |log| && !Mentions(log, from, id)
    ensures id in Fold({}, log) <==> id in Fold({}, log[..from])
    decreases |log|
  {
    if from == |log| {
      assert log[..from] == log;
    } else {
      var shorter := log[..|log| - 1];
      forall i | from <= i < |shorter| ensures shorter[i].id != id {
        assert shorter[i] == log[i];
      }
      FoldUnmentioned(shorter, from, id);
      assert shorter[..from] == log[..from];
      assert log[|log| - 1].id != id;
    }
  }

  /** The last change that mentions a peer decides whether it is registered. */
  lemma FoldLastMention(log: seq<Change>, at: nat)
    requires at < |log| && !Mentions(log, at + 1, log[at].id)
    ensures log[at].id in Fold({}, log) <==> log[at].Add?
  {
  }

  /** Apart from peers with a change at or after `from`, `ids` is what the server would answer. */
  ghost predicate Agrees(ids: set<Id>, c: Id, from: nat, h: Hub) {
    forall id :: Mentions(h.log, from, id) || (id in ids <==> id in Discover(h, c))
  }

  lemma AgreesKept(ids: set<Id>, c: Id, from: nat, h: Hub, h': Hub)
    requires Agrees(ids, c, from, h) && from <= |h.log| && Evolves(h, h')
    ensures Agrees(ids, c, from, h')
  {
  }

  /** Applying the next unread change moves the agreement past it. */
  lemma AgreesStep(ids: set<Id>, c: Id, from: nat, h: Hub)
    requires HubInv(h) && Agrees(ids, c, from, h) && from < |h.log| && h.log[from] != Add(c)
    ensures Agrees(Client.ApplyChange(ids, h.log[from]), c, from + 1, h)
  {
    var change := h.log[from];
    forall id | !Mentions(h.log, from + 1, id)
      ensures id in Client.ApplyChange(ids, change) <==> id in Discover(h, c)
    {
      if id == change.id {
        FoldLastMention(h.log, from);
      } else {
        assert !Mentions(h.log, from, id);
      }
    }
  }

  /** A listener subscribed after its own advertisement, with a list of the peers registered then. */
  ghost predicate Subscribed(c: Id, st: PeerStream, log: seq<Change>) {
    && st.start <= st.pos <= |log|
    && Lists(st.order, Fold({}, log[..st.start]) - {c})
    && Add(c) in log[..st.start]
  }

  /** Everything on its way to the client. */
  ghost function OnWire(first: bool, from: nat, st: PeerStream, log: seq<Change>): seq<PeerEvent>
    requires from <= st.pos <= |log|
  {
    (if first then [Changes(Adds(st.order))] else []) + Singles(log[from..st.pos]) + (if st.ended then [DataLoss] else [])
  }

  ghost predicate StreamOk(c: Id, node: Node, st: PeerStream, log: seq<Change>) {
    && Subscribed(c, st, log)
    && st.start + |node.applied| <= st.pos
    && node.applied == log[st.start..st.start + |node.applied|]
    && (node.core.first ==> node.applied == [])
    && (node.phase != Stopped ==> st.wire == OnWire(node.core.first, st.start + |node.applied|, st, log))
  }

  ghost predicate DiscoveryOk(c: Id, node: Node, st: PeerStream, h: Hub) {
    && (node.core.first ==> node.core.discovered == {} && node.sync.None?)
    && (node.sync.Some? ==> node.sync.value.rest == [])
    && (node.phase == Running && !node.core.first ==>
          Agrees(if node.sync.Some? then node.sync.value.reply else node.core.discovered, c, st.start + |node.applied|, h))
  }

  ghost predicate NodeOk(c: Id, node: Node) {
    && node.core.id == c
    && (node.phase in {Advertised, PeerOpen, OfferOpen} ==> node == NewNode(c).(phase := node.phase))
  }

  /** The invariant of one client that already has a peer stream, or none yet. */
  ghost predicate At(s: State, c: Id)
    requires c in s.nodes
  {
    && NodeOk(c, s.nodes[c])
    && (s.nodes[c].phase == Advertised ==> c !in s.streams && Add(c) in s.hub.log)
    && (s.nodes[c].phase in {PeerOpen, OfferOpen, Running} ==> c in s.streams)
    && (c in s.streams ==>
          StreamOk(c, s.nodes[c], s.streams[c], s.hub.log) && DiscoveryOk(c, s.nodes[c], s.streams[c], s.hub))
  }

  ghost predicate DiscoveryInv(s: State) {
    && HubInv(s.hub)
    && (forall c: Id :: c in s.nodes <==> c < s.hub.gen)
    && (forall c :: c in s.streams ==> c in s.nodes)
    && (forall c :: c in s.nodes ==> At(s, c))
  }

  lemma StreamKept(c: Id, node: Node, st: PeerStream, h: Hub, h': Hub)
    requires StreamOk(c, node, st, h.log) && DiscoveryOk(c, node, st, h) && Evolves(h, h')
    ensures StreamOk(c, node, st, h'.log) && DiscoveryOk(c, node, st, h')
  {
    var from := st.start + |node.applied|;
    assert forall a: nat, b: nat :: a <= b <= |h.log| ==> h'.log[a..b] == h.log[a..b];
    assert h'.log[..st.start] == h.log[..st.start];
    if node.phase == Running && !node.core.first {
      AgreesKept(if node.sync.Some? then node.sync.value.reply else node.core.discovered, c, from, h, h');
    }
  }

  lemma SinglesSnoc(changes: seq<Change>, change: Change)
    ensures Singles(changes + [change]) == Singles(changes) + [Changes([change])]
  {
  }

  lemma PumpOk(c: Id, node: Node, st: PeerStream, log: seq<Change>)
    requires StreamOk(c, node, st, log) && !st.ended && st.pos < |log|
    ensures StreamOk(c, node, Pump(st, log), log)
  {
    var from := st.start + |node.applied|;
    var st' := Pump(st, log);
    if !st'.ended {
      assert log[from..st.pos + 1] == log[from..st.pos] + [log[st.pos]];
      SinglesSnoc(log[from..st.pos], log[st.pos]);
    }
  }

  lemma AddedOnce(log: seq<Change>, gen: nat, start: nat, i: nat, c: Id)
    requires AddsInOrder(log, gen) && start <= i < |log| && Add(c) in log[..start]
    ensures log[i] != Add(c)
  {
  }

  /** What is first on the wire, and what remains. */
  lemma NextOnWire(c: Id, node: Node, st: PeerStream, log: seq<Change>)
    requires StreamOk(c, node, st, log) && node.phase != Stopped && st.wire != []
    ensures var from := st.start + |node.applied|;
      if node.core.first then
        st.wire[0] == Changes(Adds(st.order)) && st.wire[1..] == OnWire(false, from, st, log)
      else if from < st.pos then
        st.wire[0] == Changes([log[from]]) && st.wire[1..] == OnWire(false, from + 1, st, log)
      else
        st.wire[0] == DataLoss && st.ended
  {
  }

  /** The first message: an empty set takes in the whole snapshot, without a resynchronisation. */
  lemma FirstMessageOk(c: Id, node: Node, st: PeerStream, h: Hub, n: nat)
    requires HubInv(h) && node.core.id == c && StreamOk(c, node, st, h.log) && DiscoveryOk(c, node, st, h)
    requires node.core.first && node.phase == Running && st.wire != []
    ensures var node', st' := OnPeerEvent(node, h, n, st.wire[0]), st.(wire := st.wire[1..]);
      && st.wire[0] == Changes(Adds(st.order))
      && StreamOk(c, node', st', h.log) && DiscoveryOk(c, node', st', h)
      && node' == Heard(node, n, Adds(st.order)).(core := node'.core)
      && node'.core == Client.FinishDiscovery(Heard(node, n, Adds(st.order)).core, Elements(st.order), Adds(st.order))
  {
    NextOnWire(c, node, st, h.log);
    Client.FreshAdditionsSettle({}, st.order);
    var heard := Heard(node, n, Adds(st.order));
    var d := Elements(st.order);
    assert {} + d == d;
    var node' := OnPeerEvent(node, h, n, st.wire[0]);
    assert node' == heard.(core := Client.FinishDiscovery(heard.core, d, Adds(st.order)), sync := None);
    assert !node'.core.first && node'.core.discovered == d;
    SnapshotAgrees(c, st, h);
  }

  lemma SnapshotAgrees(c: Id, st: PeerStream, h: Hub)
    requires HubInv(h) && Subscribed(c, st, h.log)
    ensures Agrees(Elements(st.order), c, st.start, h)
  {
    forall id | !Mentions(h.log, st.start, id)
      ensures id in Elements(st.order) <==> id in Discover(h, c)
    {
      FoldUnmentioned(h.log, st.start, id);
    }
  }

  lemma RunOne(discovered: set<Id>, change: Change)
    ensures Client.RunChanges(discovered, [change])
      == if Client.ChangeSettles(discovered, change) then (Client.ApplyChange(discovered, change), None)
         else (discovered, Some([]))
  {
    assert Client.RunChanges(Client.ApplyChange(discovered, change), [change][1..]).1.None?;
  }

  /** What a single change does after the first message. */
  lemma LaterOutcome(node: Node, h: Hub, n: nat, change: Change)
    requires !node.core.first
    ensures var node', heard := OnPeerEvent(node, h, n, Changes([change])), Heard(node, n, [change]);
      if Client.ChangeSettles(node.core.discovered, change) then
        node' == heard.(core := heard.core.(discovered := Client.ApplyChange(node.core.discovered, change)), sync := None)
      else node' == heard.(sync := Some(Sync(Discover(h, node.core.id), [], [change])))
  {
    RunOne(node.core.discovered, change);
  }

  /** Once the change at `from` is applied or being resynchronised, the agreement moves past it. */
  lemma LaterAgrees(c: Id, node: Node, st: PeerStream, h: Hub)
    requires HubInv(h) && node.core.id == c && StreamOk(c, node, st, h.log) && DiscoveryOk(c, node, st, h)
    requires !node.core.first && node.phase == Running && node.sync.None? && st.start + |node.applied| < st.pos
    ensures var from := st.start + |node.applied|;
      && h.log[st.start..from + 1] == node.applied + [h.log[from]]
      && Agrees(Client.ApplyChange(node.core.discovered, h.log[from]), c, from + 1, h) && Agrees(Discover(h, c), c, from + 1, h)
  {
    var from := st.start + |node.applied|;
    assert h.log[st.start..from + 1] == node.applied + [h.log[from]];
    AddedOnce(h.log, h.gen, st.start, from, c);
    AgreesStep(node.core.discovered, c, from, h);
  }

  /** The change at `from` was consumed: the client has applied it or waits for a reply. */
  lemma ConsumedOk(c: Id, node: Node, node': Node, st: PeerStream, h: Hub)
    requires HubInv(h) && node.core.id == c && StreamOk(c, node, st, h.log) && DiscoveryOk(c, node, st, h)
    requires !node.core.first && node.phase == Running && node.sync.None? && st.wire != [] && st.start + |node.applied| < st.pos
    requires node'.applied == node.applied + [h.log[st.start + |node.applied|]] && !node'.core.first && node'.phase == Running
    requires if node'.sync.Some? then node'.sync.value.reply == Discover(h, c) && node'.sync.value.rest == []
             else node'.core.discovered == Client.ApplyChange(node.core.discovered, h.log[st.start + |node.applied|])
    ensures StreamOk(c, node', st.(wire := st.wire[1..]), h.log) && DiscoveryOk(c, node', st.(wire := st.wire[1..]), h)
  {
    LaterAgrees(c, node, st, h);
    NextOnWire(c, node, st, h.log);
    hide HubInv, Agrees, Subscribed;
  }

  /** Any later message carries one change, which is applied or answered by a resynchronisation. */
  lemma LaterMessageOk(c: Id, node: Node, st: PeerStream, h: Hub, n: nat)
    requires HubInv(h) && node.core.id == c && StreamOk(c, node, st, h.log) && DiscoveryOk(c, node, st, h)
    requires !node.core.first && node.phase == Running && node.sync.None? && st.wire != []
    ensures var node', st' := OnPeerEvent(node, h, n, st.wire[0]), st.(wire := st.wire[1..]);
      StreamOk(c, node', st', h.log) && DiscoveryOk(c, node', st', h)
  {
    hide HubInv, Agrees, Client.RunChanges, Client.ApplyChange;
    var from := st.start + |node.applied|;
    var node' := OnPeerEvent(node, h, n, st.wire[0]);
    NextOnWire(c, node, st, h.log);
    if from < st.pos {
      LaterOutcome(node, h, n, h.log[from]);
      ConsumedOk(c, node, node', st, h);
    } else {
      LossOk(c, node, node', st, h);
    }
  }

  lemma LossOk(c: Id, node: Node, node': Node, st: PeerStream, h: Hub)
    requires StreamOk(c, node, st, h.log) && DiscoveryOk(c, node, st, h) && st.wire != [] && !node.core.first
    requires node' == node.(core := node'.core, phase := Stopped) && node'.core.first == node.core.first
    ensures StreamOk(c, node', st.(wire := st.wire[1..]), h.log) && DiscoveryOk(c, node', st.(wire := st.wire[1..]), h)
  {
  }

  lemma SyncReplyOk(c: Id, node: Node, st: PeerStream, h: Hub)
    requires node.core.id == c && StreamOk(c, node, st, h.log) && DiscoveryOk(c, node, st, h)
    requires node.phase == Running && node.sync.Some?
    ensures var node' := Discovering(node, h, node.sync.value.reply, node.sync.value.rest, node.sync.value.all);
      && StreamOk(c, node', st, h.log) && DiscoveryOk(c, node', st, h)
      && node' == node.(core := node.core.(discovered := node.sync.value.reply), sync := None)
  {
  }

  /** The client whose own state an event may change. */
  function ActorOf(e: Event): Option<Id> {
    match e
    case Advertise => None
    case Forward(_) => None
    case Teardown(_) => None
    case Drop(_) => None
    case OpenPeer(c, _) => Some(c)
    case Open(c, _) => Some(c)
    case PumpPeer(c) => Some(c)
    case StepPeer(c, _) => Some(c)
    case SyncReply(c) => Some(c)
    case StepListener(c, _) => Some(c)
    case StepCreateOffer(c, _, _) => Some(c)
    case StepReceiveOffer(c, _, _) => Some(c)
    case Take(c, _) => Some(c)
    case StepReceiveAnswer(c, _) => Some(c)
    case StepCplt(c, _) => Some(c)
    case Stop(c) => Some(c)
  }

  /** The events at a running client that do not concern discovery. */
  predicate ChainEvent(e: Event) {
    || e.StepListener? || e.StepCreateOffer? || e.StepReceiveOffer? || e.Take?
    || e.StepReceiveAnswer? || e.StepCplt?
  }

  ghost predicate SameDiscovery(node: Node, node': Node) {
    && node'.core.id == node.core.id && node'.core.first == node.core.first
    && node'.core.discovered == node.core.discovered && node'.applied == node.applied && node'.sync == node.sync
  }

  lemma ListenerUndisturbed(s: State, c: Id, n: nat)
    requires Enabled(s, StepListener(c, n))
    ensures Undisturbed(s, DoStepListener(s, c, n), c)
  {
  }

  lemma CreateOfferUndisturbed(s: State, c: Id, n: nat, offer: Payload)
    requires Enabled(s, StepCreateOffer(c, n, offer))
    ensures Undisturbed(s, DoStepCreateOffer(s, c, n, offer), c)
  {
  }

  lemma ReceiveOfferUndisturbed(s: State, c: Id, n: nat, answer: Payload)
    requires Enabled(s, StepReceiveOffer(c, n, answer))
    ensures Undisturbed(s, DoStepReceiveOffer(s, c, n, answer), c)
  {
  }

  lemma TakeUndisturbed(s: State, c: Id, n: nat)
    requires Enabled(s, Take(c, n))
    ensures Undisturbed(s, DoTake(s, c, n), c)
  {
  }

  lemma ReceiveAnswerUndisturbed(s: State, c: Id, n: nat)
    requires Enabled(s, StepReceiveAnswer(c, n))
    ensures Undisturbed(s, DoStepReceiveAnswer(s, c, n), c)
  {
  }

  lemma CpltUndisturbed(s: State, c: Id, n: nat)
    requires Enabled(s, StepCplt(c, n))
    ensures Undisturbed(s, DoStepCplt(s, c, n), c)
  {
  }

  /** Only client `c` acted, and what it has discovered did not change. */
  ghost predicate Undisturbed(s: State, s': State, c: Id) {
    && c in s.nodes && s'.streams == s.streams
    && c in s'.nodes && s'.nodes == s.nodes[c := s'.nodes[c]]
    && SameDiscovery(s.nodes[c], s'.nodes[c])
    && s.nodes[c].phase == Running && s'.nodes[c].phase in {Running, Stopped}
  }

  lemma SameDiscoveryOk(c: Id, node: Node, node': Node, st: PeerStream, h: Hub)
    requires StreamOk(c, node, st, h.log) && DiscoveryOk(c, node, st, h) && SameDiscovery(node, node')
    requires node'.phase in {node.phase, Stopped} || node.core.first
    requires node.phase != Stopped
    ensures StreamOk(c, node', st, h.log) && DiscoveryOk(c, node', st, h)
  {
  }

  lemma EventsOnTheSide(s: State, e: Event)
    requires Enabled(s, e) && (e.Forward? || e.Teardown? || e.Drop?)
    ensures Apply(s, e).nodes == s.nodes && Apply(s, e).streams == s.streams
  {
  }

  /** A client that did not act keeps its invariant while the registry evolves. */
  lemma BystanderKept(s: State, s': State, c: Id)
    requires c in s.nodes && At(s, c) && Evolves(s.hub, s'.hub)
    requires c in s'.nodes && s'.nodes[c] == s.nodes[c]
    requires c in s'.streams <==> c in s.streams
    requires c in s.streams ==> s'.streams[c] == s.streams[c]
    ensures At(s', c)
  {
    if c in s.streams {
      StreamKept(c, s.nodes[c], s.streams[c], s.hub, s'.hub);
    }
    if Add(c) in s.hub.log {
      var i :| 0 <= i < |s.hub.log| && s.hub.log[i] == Add(c);
      assert s'.hub.log[..|s.hub.log|][i] == s.hub.log[i];
    }
  }

  /** Only client `c` acted. */
  ghost predicate OnlyActed(s: State, s': State, c: Id) {
    && c in s.nodes && c in s'.nodes && s'.nodes == s.nodes[c := s'.nodes[c]]
    && (s'.streams == s.streams || (c in s'.streams && s'.streams == s.streams[c := s'.streams[c]]))
  }

  lemma ChainEventUndisturbed(s: State, e: Event)
    requires Enabled(s, e) && ChainEvent(e)
    ensures Undisturbed(s, Apply(s, e), ActorOf(e).value)
  {
    match e
    case StepListener(c, n) => ListenerUndisturbed(s, c, n);
    case StepCreateOffer(c, n, offer) => CreateOfferUndisturbed(s, c, n, offer);
    case StepReceiveOffer(c, n, answer) => ReceiveOfferUndisturbed(s, c, n, answer);
    case Take(c, n) => TakeUndisturbed(s, c, n);
    case StepReceiveAnswer(c, n) => ReceiveAnswerUndisturbed(s, c, n);
    case StepCplt(c, n) => CpltUndisturbed(s, c, n);
  }

  lemma UndisturbedKept(s: State, s': State, c: Id)
    requires Undisturbed(s, s', c) && At(s, c) && Evolves(s.hub, s'.hub)
    ensures OnlyActed(s, s', c) && At(s', c)
  {
    StreamKept(c, s.nodes[c], s.streams[c], s.hub, s'.hub);
    SameDiscoveryOk(c, s.nodes[c], s'.nodes[c], s.streams[c], s'.hub);
  }

  lemma OpenKept(s: State, c: Id, side: Side)
    requires Enabled(s, Open(c, side)) && At(s, c)
    ensures OnlyActed(s, DoOpen(s, c, side), c) && At(DoOpen(s, c, side), c)
  {
  }

  lemma OpenPeerKept(s: State, c: Id, order: seq<Id>)
    requires Enabled(s, OpenPeer(c, order)) && At(s, c) && HubInv(s.hub)
    ensures OnlyActed(s, DoOpenPeer(s, c, order), c) && At(DoOpenPeer(s, c, order), c)
  {
    var log := s.hub.log;
    assert log[..|log|] == log;
  }

  lemma PumpPeerKept(s: State, c: Id)
    requires Enabled(s, PumpPeer(c)) && c in s.nodes && At(s, c)
    ensures OnlyActed(s, DoPumpPeer(s, c), c) && At(DoPumpPeer(s, c), c)
  {
    PumpOk(c, s.nodes[c], s.streams[c], s.hub.log);
  }

  lemma PeerEventShape(node: Node, h: Hub, n: nat, event: PeerEvent)
    ensures var node' := OnPeerEvent(node, h, n, event);
      node'.core.id == node.core.id && node'.phase in {node.phase, Stopped}
  {
  }

  lemma StepPeerKept(s: State, c: Id, n: nat)
    requires Enabled(s, StepPeer(c, n)) && At(s, c) && HubInv(s.hub)
    ensures OnlyActed(s, DoStepPeer(s, c, n), c) && At(DoStepPeer(s, c, n), c)
  {
    PeerEventShape(s.nodes[c], s.hub, n, s.streams[c].wire[0]);
    if s.nodes[c].core.first {
      FirstMessageOk(c, s.nodes[c], s.streams[c], s.hub, n);
    } else {
      LaterMessageOk(c, s.nodes[c], s.streams[c], s.hub, n);
    }
  }

  lemma SyncReplyKept(s: State, c: Id)
    requires Enabled(s, SyncReply(c)) && At(s, c)
    ensures OnlyActed(s, DoSyncReply(s, c), c) && At(DoSyncReply(s, c), c)
  {
  }

  lemma ActorKept(s: State, e: Event)
    requires HubInv(s.hub) && Enabled(s, e) && Evolves(s.hub, Apply(s, e).hub)
    requires ActorOf(e).Some? && ActorOf(e).value in s.nodes && At(s, ActorOf(e).value)
    ensures OnlyActed(s, Apply(s, e), ActorOf(e).value) && At(Apply(s, e), ActorOf(e).value)
  {
    if ChainEvent(e) {
      ChainEventUndisturbed(s, e);
      UndisturbedKept(s, Apply(s, e), ActorOf(e).value);
    } else {
      match e
      case OpenPeer(c, order) => OpenPeerKept(s, c, order);
      case Open(c, side) => OpenKept(s, c, side);
      case PumpPeer(c) => PumpPeerKept(s, c);
      case StepPeer(c, n) => StepPeerKept(s, c, n);
      case SyncReply(c) => SyncReplyKept(s, c);
      case Stop(c) =>
    }
  }

  lemma NewcomerOk(s: State)
    requires HubInv(s.hub) && s.hub.gen < ID_SPACE && s.hub.gen !in s.streams
    ensures var s' := DoAdvertise(s);
      s'.nodes == s.nodes[s.hub.gen := NewNode(s.hub.gen)] && s'.streams == s.streams && At(s', s.hub.gen)
  {
  }

  lemma AdvertiseKept(s: State, s': State)
    requires DiscoveryInv(s) && HubInv(s'.hub) && Evolves(s.hub, s'.hub) && s'.hub.gen == s.hub.gen + 1
    requires s'.nodes == s.nodes[s.hub.gen := NewNode(s.hub.gen)] && s'.streams == s.streams && At(s', s.hub.gen)
    ensures DiscoveryInv(s')
  {
    forall c | c in s.nodes ensures At(s', c) {
      BystanderKept(s, s', c);
    }
  }

  lemma AdvertisementKept(s: State, e: Event)
    requires DiscoveryInv(s) && Enabled(s, e) && e.Advertise?
    ensures DiscoveryInv(Apply(s, e))
  {
    hide Evolves, At, HubInv;
    HubKept(s, e);
    NewcomerOk(s);
    AdvertiseKept(s, Apply(s, e));
  }

  lemma DiscoveryKept(s: State, e: Event)
    requires DiscoveryInv(s) && Enabled(s, e)
    ensures DiscoveryInv(Apply(s, e))
  {
    hide Evolves, At, HubInv, Enabled, Apply;
    HubKept(s, e);
    var s' := Apply(s, e);
    if e.Advertise? {
      AdvertisementKept(s, e);
    } else {
      if ActorOf(e).None? {
        EventsOnTheSide(s, e);
      } else {
        EnabledActor(s, e);
        ActorKept(s, e);
      }
      forall c | c in s'.nodes ensures At(s', c) {
        if ActorOf(e) != Some(c) {
          BystanderKept(s, s', c);
        }
      }
    }
  }

  lemma EnabledActor(s: State, e: Event)
    requires Enabled(s, e) && ActorOf(e).Some? && (forall c :: c in s.streams ==> c in s.nodes)
    ensures ActorOf(e).value in s.nodes
  {
  }
}
