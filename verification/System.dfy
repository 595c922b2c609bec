/** The whole system: one server, any number of clients running the example peer's callbacks, and
    the streams between them, as a transition system over handler-atomic events. */
module System {
  import opened Vocabulary
  import opened Channels
  import opened Broadcast
  import opened Server
  import Client
  import ConnectionMap

  /** `start_peer` advertises and then opens three listeners; a stopped client never acts again. */
  datatype Phase = Advertised | PeerOpen | OfferOpen | Running | Stopped

  /** An opaque peer connection, remembering only who made it and for which peer. */
  datatype Conn = LocalConn(remote: Id) | RemoteConn(remote: Id)

  /** A step that waits for a peer discovery reply: the reply on its way, the peer changes still
      to be applied after it, and the whole list that the step received. */
  datatype Sync = Sync(reply: set<Id>, rest: seq<Change>, all: seq<Change>)

  /** A client. The last six fields are history: the broadcast changes it has applied, the offer
      it made per target, the answer it made per offer received, the completions of its chains,
      and whether its connection map ever returned an error. */
  datatype Node = Node(
    phase: Phase, core: Client.Core, sync: Option<Sync>,
    conns: map<Id, Option<Conn>>, held: map<nat, Conn>,
    applied: seq<Change>, made: map<Id, Payload>, replies: map<nat, Payload>,
    localDone: multiset<Id>, remoteDone: multiset<Id>, mapErr: bool)

  datatype Pair = Pair(offerer: Id, answerer: Id)

  /** History: how far the signalling chain of an ordered pair has come. `n` is a push number of a
      pending task, `j` the place of the offer in the answerer's channel, and `k` the place of the
      answer in the offerer's channel. */
  datatype Chain =
    | Creating(n: nat)
    | OfferRefused(why: Verdict)
    | OfferSent(j: nat)
    | Answering(j: nat, n: nat)
    | AnswerRefused(j: nat, why: Verdict)
    | Answered(j: nat, k: nat, loc: Local, rem: Remote)

  datatype Local = Unread | Applying(n: nat) | LocalCompleting(n: nat) | LocalDone
  datatype Remote = RemoteCompleting(n: nat) | RemoteDone

  datatype State = State(hub: Hub, streams: map<Id, PeerStream>, nodes: map<Id, Node>, chains: map<Pair, Chain>)

  const INITIAL: State := State(EMPTY, map[], map[], map[])

  datatype Event =
    | Advertise
    | OpenPeer(c: Id, order: seq<Id>)
    | Open(c: Id, side: Side)
    | PumpPeer(c: Id)
    | Forward(key: Key)
    | StepPeer(c: Id, n: nat)
    | SyncReply(c: Id)
    | StepListener(c: Id, n: nat)
    | StepCreateOffer(c: Id, n: nat, offer: Payload)
    | StepReceiveOffer(c: Id, n: nat, answer: Payload)
    | Take(c: Id, n: nat)
    | StepReceiveAnswer(c: Id, n: nat)
    | StepCplt(c: Id, n: nat)
    | Stop(c: Id)
    | Teardown(id: Id)
    | Drop(key: Key)

  /** The client is inside its `step` loop, waiting for a task to complete. */
  predicate Active(s: State, c: Id) {
    c in s.nodes && s.nodes[c].phase == Running && s.nodes[c].sync.None?
  }

  predicate Has(s: State, c: Id, n: nat) {
    Active(s, c) && n in s.nodes[c].core.tasks
  }

  function TaskOf(s: State, c: Id, n: nat): Client.Task
    requires Has(s, c, n)
  {
    s.nodes[c].core.tasks[n]
  }

  ghost predicate Enabled(s: State, e: Event) {
    match e
    case Advertise => s.hub.gen < ID_SPACE
    case OpenPeer(c, order) =>
      c in s.nodes && s.nodes[c].phase == Advertised && Lists(order, Discover(s.hub, c))
    case Open(c, side) =>
      c in s.nodes && s.nodes[c].phase == (if side == OfferSide then PeerOpen else OfferOpen)
    case PumpPeer(c) => c in s.streams && !s.streams[c].ended && s.streams[c].pos < |s.hub.log|
    case Forward(key) => key in s.hub.chans && s.hub.chans[key].alive && s.hub.chans[key].fwd < |s.hub.chans[key].log|
    case StepPeer(c, n) =>
      Has(s, c, n) && TaskOf(s, c, n).PeerListener? && c in s.streams && s.streams[c].wire != []
    case SyncReply(c) => c in s.nodes && s.nodes[c].phase == Running && s.nodes[c].sync.Some?
    case StepListener(c, n) =>
      && Has(s, c, n) && TaskOf(s, c, n).Listener?
      && var key := Key(TaskOf(s, c, n).side, c);
        key in s.hub.chans && Arrived(s.hub.chans[key])
    case StepCreateOffer(c, n, _) => Has(s, c, n) && TaskOf(s, c, n).CreateOffer?
    case StepReceiveOffer(c, n, _) => Has(s, c, n) && TaskOf(s, c, n).ReceiveOffer?
    case Take(c, n) => Has(s, c, n) && Takes(TaskOf(s, c, n)) && n !in s.nodes[c].held
    case StepReceiveAnswer(c, n) => Has(s, c, n) && TaskOf(s, c, n).ReceiveAnswer? && n in s.nodes[c].held
    case StepCplt(c, n) =>
      && Has(s, c, n) && (TaskOf(s, c, n).LocalCplt? || TaskOf(s, c, n).RemoteCplt?)
      && n in s.nodes[c].held
    case Stop(c) => c in s.nodes && s.nodes[c].phase != Stopped
    case Teardown(_) => true
    case Drop(key) => key in s.hub.chans && s.hub.chans[key].alive
  }

  /** A signal has reached the client's end of the channel. */
  predicate Arrived(ch: Chan) {
    ch.read <= ch.fwd <= |ch.log| && NextSignal(ch.log, ch.read, ch.fwd) < ch.fwd
  }

  /** The callbacks that start by taking a connection out of the map. */
  predicate Takes(t: Client.Task) {
    t.ReceiveAnswer? || t.LocalCplt? || t.RemoteCplt?
  }

  function NewNode(id: Id): Node {
    Node(Advertised, Client.Core(id, {}, true, map[], 0), None, map[], map[], [], map[], map[], multiset{}, multiset{}, false)
  }

  function Put(s: State, c: Id, node: Node): State {
    s.(nodes := s.nodes[c := node])
  }

  function Halt(s: State, c: Id): State
    requires c in s.nodes
  {
    Put(s, c, s.nodes[c].(phase := Stopped))
  }

  function DoAdvertise(s: State): State {
    var (hub, r) := Admit(s.hub);
    if r.Ok? then s.(hub := hub, nodes := s.nodes[r.value := NewNode(r.value)]) else s.(hub := hub)
  }

  function DoOpenPeer(s: State, c: Id, order: seq<Id>): State
    requires c in s.nodes
  {
    Put(s.(streams := s.streams[c := NewStream(order, s.hub.log)]), c, s.nodes[c].(phase := PeerOpen))
  }

  function DoOpen(s: State, c: Id, side: Side): State
    requires c in s.nodes
  {
    var (hub, r) := OpenListener(s.hub, side, c);
    if r.Err? then Halt(s, c)
    else if side == OfferSide then Put(s.(hub := hub), c, s.nodes[c].(phase := OfferOpen))
    else Put(s.(hub := hub), c, s.nodes[c].(phase := Running, core := Client.NewCore(c)))
  }

  function DoPumpPeer(s: State, c: Id): State
    requires c in s.streams && !s.streams[c].ended && s.streams[c].pos < |s.hub.log|
  {
    s.(streams := s.streams[c := Pump(s.streams[c], s.hub.log)])
  }

  function SetChan(s: State, key: Key, ch: Chan): State {
    s.(hub := s.hub.(chans := s.hub.chans[key := ch]))
  }

  function DoForward(s: State, key: Key): State
    requires key in s.hub.chans
  {
    SetChan(s, key, s.hub.chans[key].(fwd := s.hub.chans[key].fwd + 1))
  }

  function DoDrop(s: State, key: Key): State
    requires key in s.hub.chans
  {
    SetChan(s, key, s.hub.chans[key].(alive := false))
  }

  /** Runs the loop over peer changes until it ends or has to wait for a discovery reply. */
  function Discovering(node: Node, h: Hub, discovered: set<Id>, changes: seq<Change>, all: seq<Change>): Node {
    var (d, rest) := Client.RunChanges(discovered, changes);
    if rest.Some? then
      node.(core := node.core.(discovered := d), sync := Some(Sync(Discover(h, node.core.id), rest.value, all)))
    else
      node.(core := Client.FinishDiscovery(node.core, d, all), sync := None)
  }

  /** The peer listener task has resolved and is queued again. */
  function Heard(node: Node, n: nat, changes: seq<Change>): Node {
    node.(core := Client.Queue(Client.Done(node.core, n), Client.PeerListener),
          applied := if node.core.first then node.applied else node.applied + changes)
  }

  function OnPeerEvent(node: Node, h: Hub, n: nat, event: PeerEvent): Node {
    match event
    case DataLoss => node.(core := Client.Done(node.core, n), phase := Stopped)
    case Changes(changes) => Discovering(Heard(node, n, changes), h, node.core.discovered, changes, changes)
  }

  /** The chains that start when the first discovery ends. */
  function Started(chains: map<Pair, Chain>, before: Client.Core, after: Client.Core, all: seq<Change>): map<Pair, Chain> {
    if before.first && !after.first then NoteOffers(chains, before.id, AddedIds(all), before.next) else chains
  }

  function NoteOffers(chains: map<Pair, Chain>, c: Id, targets: seq<Id>, next: nat): (r: map<Pair, Chain>)
    ensures forall p :: p in r <==> p in chains || (p.offerer == c && p.answerer in targets)
    ensures forall p :: p in r && !(p.offerer == c && p.answerer in targets) ==> r[p] == chains[p]
    ensures forall i :: NoDuplicates(targets) && 0 <= i < |targets| ==> r[Pair(c, targets[i])] == Creating(next + i)
    decreases |targets|
  {
    if targets == [] then chains
    else NoteOffers(chains[Pair(c, targets[0]) := Creating(next)], c, targets[1..], next + 1)
  }

  function DoStepPeer(s: State, c: Id, n: nat): State
    requires c in s.nodes && c in s.streams && s.streams[c].wire != []
  {
    var st, node := s.streams[c], s.nodes[c];
    var node' := OnPeerEvent(node, s.hub, n, st.wire[0]);
    State(s.hub, s.streams[c := st.(wire := st.wire[1..])], s.nodes[c := node'],
      if st.wire[0].DataLoss? then s.chains
      else Started(s.chains, Heard(node, n, st.wire[0].list).core, node'.core, st.wire[0].list))
  }

  function DoSyncReply(s: State, c: Id): State
    requires c in s.nodes && s.nodes[c].sync.Some?
  {
    var node := s.nodes[c];
    var sync := node.sync.value;
    var node' := Discovering(node, s.hub, sync.reply, sync.rest, sync.all);
    Put(s, c, node').(chains := Started(s.chains, node.core, node'.core, sync.all))
  }

  function SetChain(s: State, p: Pair, ch: Chain): State {
    s.(chains := s.chains[p := ch])
  }

  function DoStepListener(s: State, c: Id, n: nat): State
    requires Enabled(s, StepListener(c, n))
  {
    var node := s.nodes[c];
    var side := TaskOf(s, c, n).side;
    var key := Key(side, c);
    var ch := s.hub.chans[key];
    var i := NextSignal(ch.log, ch.read, ch.fwd);
    var x := ch.log[i].value;
    var (core, _) := Client.Step(node.core, n, Client.Received(x, i), [], Ok(()));
    var s' := SetChan(Put(s, c, node.(core := core)), key, ch.(read := i + 1));
    if side == OfferSide then SetChain(s', Pair(x.sender, c), Answering(i, node.core.next + 1))
    else
      var p := Pair(c, x.sender);
      if p in s.chains && s.chains[p].Answered? then SetChain(s', p, s.chains[p].(loc := Applying(node.core.next + 1))) else s'
  }

  /** The callback failed on the connection map: `step` returns its error. */
  function MapError(s: State, c: Id, conns: map<Id, Option<Conn>>): State
    requires c in s.nodes
  {
    Put(s, c, s.nodes[c].(phase := Stopped, conns := conns, mapErr := true))
  }

  function After(r: Reply<()>): Phase {
    if r.Ok? then Running else Stopped
  }

  function DoStepCreateOffer(s: State, c: Id, n: nat, offer: Payload): State
    requires Enabled(s, StepCreateOffer(c, n, offer))
  {
    var node := s.nodes[c];
    var r := TaskOf(s, c, n).remote;
    var (conns, ok) := ConnectionMap.Insert(node.conns, r, LocalConn(r));
    if !ok then MapError(s, c, conns)
    else
      var (hub, sent) := Send(s.hub, OfferSide, r, Signal(c, offer));
      var (core, result) := Client.Step(node.core, n, Client.OfferCreated(offer), [], sent);
      var s' := Put(s.(hub := hub), c, node.(core := core, conns := conns, phase := After(result), made := node.made[r := offer]));
      SetChain(s', Pair(c, r),
        if sent.Ok? then OfferSent(LogLength(s.hub, OfferSide, r)) else OfferRefused(Judge(s.hub, OfferSide, r)))
  }

  function LogLength(h: Hub, side: Side, id: Id): nat {
    if Key(side, id) in h.chans then |h.chans[Key(side, id)].log| else 0
  }

  function DoStepReceiveOffer(s: State, c: Id, n: nat, answer: Payload): State
    requires Enabled(s, StepReceiveOffer(c, n, answer))
  {
    var node := s.nodes[c];
    var r := TaskOf(s, c, n).remote;
    var j := TaskOf(s, c, n).at;
    var (conns, ok) := ConnectionMap.Insert(node.conns, r, RemoteConn(r));
    if !ok then MapError(s, c, conns)
    else
      var (hub, sent) := Send(s.hub, AnswerSide, r, Signal(c, answer));
      var (core, result) := Client.Step(node.core, n, Client.AnswerCreated(answer), [], sent);
      var s' := Put(s.(hub := hub), c, node.(core := core, conns := conns, phase := After(result), replies := node.replies[j := answer]));
      SetChain(s', Pair(r, c),
        if sent.Ok? then Answered(j, LogLength(s.hub, AnswerSide, r), Unread, RemoteCompleting(node.core.next))
        else AnswerRefused(j, Judge(s.hub, AnswerSide, r)))
  }

  function DoTake(s: State, c: Id, n: nat): State
    requires Enabled(s, Take(c, n))
  {
    var node := s.nodes[c];
    var (conns, x) := ConnectionMap.Take(node.conns, TaskOf(s, c, n).remote);
    if x.None? then MapError(s, c, conns)
    else Put(s, c, node.(conns := conns, held := node.held[n := x.value]))
  }

  function DoStepReceiveAnswer(s: State, c: Id, n: nat): State
    requires Enabled(s, StepReceiveAnswer(c, n))
  {
    var node := s.nodes[c];
    var r := TaskOf(s, c, n).remote;
    var (conns, ok) := ConnectionMap.Place(node.conns, r, node.held[n]);
    if !ok then MapError(s, c, conns)
    else
      var (core, _) := Client.Step(node.core, n, Client.Resolved, [], Ok(()));
      var s' := Put(s, c, node.(core := core, conns := conns, held := node.held - {n}));
      var p := Pair(c, r);
      if p in s.chains && s.chains[p].Answered? then SetChain(s', p, s.chains[p].(loc := LocalCompleting(node.core.next))) else s'
  }

  function DoStepCplt(s: State, c: Id, n: nat): State
    requires Enabled(s, StepCplt(c, n))
  {
    var node := s.nodes[c];
    var t := TaskOf(s, c, n);
    var (core, _) := Client.Step(node.core, n, Client.Resolved, [], Ok(()));
    var next := node.(core := core, held := node.held - {n});
    if t.LocalCplt? then
      var p := Pair(c, t.remote);
      var s' := Put(s, c, next.(localDone := node.localDone + multiset{t.remote}));
      if p in s.chains && s.chains[p].Answered? then SetChain(s', p, s.chains[p].(loc := LocalDone)) else s'
    else
      var p := Pair(t.remote, c);
      var s' := Put(s, c, next.(remoteDone := node.remoteDone + multiset{t.remote}));
      if p in s.chains && s.chains[p].Answered? then SetChain(s', p, s.chains[p].(rem := RemoteDone)) else s'
  }

  ghost function Apply(s: State, e: Event): State
    requires Enabled(s, e)
  {
    match e
    case Advertise => DoAdvertise(s)
    case OpenPeer(c, order) => DoOpenPeer(s, c, order)
    case Open(c, side) => DoOpen(s, c, side)
    case PumpPeer(c) => DoPumpPeer(s, c)
    case Forward(key) => DoForward(s, key)
    case StepPeer(c, n) => DoStepPeer(s, c, n)
    case SyncReply(c) => DoSyncReply(s, c)
    case StepListener(c, n) => DoStepListener(s, c, n)
    case StepCreateOffer(c, n, offer) => DoStepCreateOffer(s, c, n, offer)
    case StepReceiveOffer(c, n, answer) => DoStepReceiveOffer(s, c, n, answer)
    case Take(c, n) => DoTake(s, c, n)
    case StepReceiveAnswer(c, n) => DoStepReceiveAnswer(s, c, n)
    case StepCplt(c, n) => DoStepCplt(s, c, n)
    case Stop(c) => Halt(s, c)
    case Teardown(id) => s.(hub := Evict(s.hub, id).0)
    case Drop(key) => DoDrop(s, key)
  }

  /** A run: states linked by enabled events, from the initial state. */
  ghost predicate IsRun(ss: seq<State>, es: seq<Event>) {
    && |ss| == |es| + 1
    && ss[0] == INITIAL
    && forall i :: 0 <= i < |es| ==> Enabled(ss[i], es[i]) && ss[i + 1] == Apply(ss[i], es[i])
  }
}
