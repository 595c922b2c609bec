/** Every pending task and every signal in a channel belongs to exactly one stage of one signalling
    chain: the invariant behind conservation and causality. */
module Chains {
  import opened Vocabulary
  import opened Channels
  import opened Broadcast
  import opened Server
  import opened System
  import opened Registry
  import opened Discovery
  import Client
  import ConnectionMap

  ghost predicate HasTask(s: State, c: Id, n: nat, t: Client.Task) {
    c in s.nodes && n in s.nodes[c].core.tasks && s.nodes[c].core.tasks[n] == t
  }

  ghost predicate InChan(s: State, key: Key, i: nat, x: Signal) {
    key in s.hub.chans && 1 <= i < |s.hub.chans[key].log| && s.hub.chans[key].log[i] == Some(x)
  }

  ghost predicate WasRead(s: State, key: Key, i: nat) {
    key in s.hub.chans && i < s.hub.chans[key].read
  }

  /** The offer made for the pair is the `j`-th message of the answerer's offer channel. */
  ghost predicate OfferAt(s: State, p: Pair, j: nat) {
    && p.offerer in s.nodes && p.answerer in s.nodes[p.offerer].made
    && InChan(s, Key(OfferSide, p.answerer), j, Signal(p.offerer, s.nodes[p.offerer].made[p.answerer]))
  }

  ghost predicate OfferRead(s: State, p: Pair, j: nat) {
    OfferAt(s, p, j) && WasRead(s, Key(OfferSide, p.answerer), j)
  }

  /** The answer made to offer `j` is the `k`-th message of the offerer's answer channel. */
  ghost predicate AnswerAt(s: State, p: Pair, j: nat, k: nat) {
    && p.answerer in s.nodes && j in s.nodes[p.answerer].replies
    && InChan(s, Key(AnswerSide, p.offerer), k, Signal(p.answerer, s.nodes[p.answerer].replies[j]))
  }

  ghost predicate LocalOk(s: State, p: Pair, j: nat, k: nat, loc: Local)
    requires AnswerAt(s, p, j, k)
  {
    && (loc.Unread? <==> !WasRead(s, Key(AnswerSide, p.offerer), k))
    && (loc.Applying? ==>
          HasTask(s, p.offerer, loc.n, Client.ReceiveAnswer(p.answerer, s.nodes[p.answerer].replies[j], k)))
    && (loc.LocalCompleting? ==> HasTask(s, p.offerer, loc.n, Client.LocalCplt(p.answerer)))
  }

  ghost predicate RemoteOk(s: State, p: Pair, rem: Remote) {
    rem.RemoteCompleting? ==> HasTask(s, p.answerer, rem.n, Client.RemoteCplt(p.offerer))
  }

  ghost predicate StageOk(s: State, p: Pair, chain: Chain) {
    match chain
    case Creating(n) => HasTask(s, p.offerer, n, Client.CreateOffer(p.answerer))
    case OfferRefused(_) => true
    case OfferSent(j) => OfferAt(s, p, j) && !WasRead(s, Key(OfferSide, p.answerer), j)
    case Answering(j, n) =>
      OfferRead(s, p, j)
      && HasTask(s, p.answerer, n, Client.ReceiveOffer(p.offerer, s.nodes[p.offerer].made[p.answerer], j))
    case AnswerRefused(j, _) => OfferRead(s, p, j) && p.answerer in s.nodes && j in s.nodes[p.answerer].replies
    case Answered(j, k, loc, rem) =>
      OfferRead(s, p, j) && AnswerAt(s, p, j, k) && LocalOk(s, p, j, k, loc) && RemoteOk(s, p, rem)
  }

  /** A chain runs between two distinct peers, towards a target from the offerer's initial list. */
  ghost predicate PairOk(s: State, p: Pair) {
    && p.offerer in s.nodes && p.answerer in s.nodes && p.offerer != p.answerer
    && p.offerer in s.streams && p.answerer in s.streams[p.offerer].order
    && !s.nodes[p.offerer].core.first
  }

  ghost predicate ChainOk(s: State, p: Pair)
    requires p in s.chains
  {
    PairOk(s, p) && StageOk(s, p, s.chains[p])
  }

  /** The pending task is the one that its chain is waiting for. */
  ghost predicate TaskOk(s: State, c: Id, n: nat, t: Client.Task) {
    match t
    case CreateOffer(r) => Pair(c, r) in s.chains && s.chains[Pair(c, r)] == Creating(n)
    case ReceiveOffer(r, _, j) => Pair(r, c) in s.chains && s.chains[Pair(r, c)] == Answering(j, n)
    case ReceiveAnswer(r, _, k) =>
      && Pair(c, r) in s.chains && s.chains[Pair(c, r)].Answered?
      && s.chains[Pair(c, r)].k == k && s.chains[Pair(c, r)].loc == Applying(n)
    case LocalCplt(r) =>
      Pair(c, r) in s.chains && s.chains[Pair(c, r)].Answered? && s.chains[Pair(c, r)].loc == LocalCompleting(n)
    case RemoteCplt(r) =>
      Pair(r, c) in s.chains && s.chains[Pair(r, c)].Answered? && s.chains[Pair(r, c)].rem == RemoteCompleting(n)
    case _ => true
  }

  ghost predicate HasOffer(chain: Chain, j: nat) {
    match chain
    case Creating(_) => false
    case OfferRefused(_) => false
    case OfferSent(i) => i == j
    case Answering(i, _) => i == j
    case AnswerRefused(i, _) => i == j
    case Answered(i, _, _, _) => i == j
  }

  /** The `i`-th message of a channel is the offer or the answer of its sender's chain. */
  ghost predicate MessageOk(s: State, key: Key, i: nat, x: Signal) {
    if key.side == OfferSide then
      Pair(x.sender, key.id) in s.chains && HasOffer(s.chains[Pair(x.sender, key.id)], i)
    else
      && Pair(key.id, x.sender) in s.chains && s.chains[Pair(key.id, x.sender)].Answered?
      && s.chains[Pair(key.id, x.sender)].k == i
  }

  ghost predicate Replied(chain: Chain, j: nat) {
    (chain.AnswerRefused? || chain.Answered?) && chain.j == j
  }

  /** The answer recorded for an offer belongs to a chain that has got past answering it. */
  ghost predicate ReplyOk(s: State, t: Id, j: nat) {
    var key := Key(OfferSide, t);
    && key in s.hub.chans && 1 <= j < |s.hub.chans[key].log| && s.hub.chans[key].log[j].Some?
    && Pair(s.hub.chans[key].log[j].value.sender, t) in s.chains
    && Replied(s.chains[Pair(s.hub.chans[key].log[j].value.sender, t)], j)
  }

  ghost predicate MadeOk(s: State, o: Id, t: Id) {
    Pair(o, t) in s.chains && !s.chains[Pair(o, t)].Creating?
  }

  ghost predicate ChainsOk(s: State) {
    forall p :: p in s.chains ==> ChainOk(s, p)
  }

  ghost predicate TasksOk(s: State) {
    forall c, n :: c in s.nodes && n in s.nodes[c].core.tasks ==>
      n < s.nodes[c].core.next && TaskOk(s, c, n, s.nodes[c].core.tasks[n])
  }

  ghost predicate MessagesOk(s: State) {
    forall key, i :: key in s.hub.chans && 1 <= i < |s.hub.chans[key].log| && s.hub.chans[key].log[i].Some? ==>
      MessageOk(s, key, i, s.hub.chans[key].log[i].value)
  }

  ghost predicate RecordsOk(s: State) {
    && (forall o, t :: o in s.nodes && t in s.nodes[o].made ==> MadeOk(s, o, t))
    && (forall t, j :: t in s.nodes && j in s.nodes[t].replies ==> ReplyOk(s, t, j))
  }

  ghost predicate ChainInv(s: State) {
    ChainsOk(s) && TasksOk(s) && MessagesOk(s) && RecordsOk(s)
  }

  /** The tasks that belong to chains. */
  function Work(core: Client.Core): map<nat, Client.Task> {
    map n | n in core.tasks && !Client.IsListener(core.tasks[n]) :: core.tasks[n]
  }

  ghost predicate SameNode(node: Node, node': Node) {
    && Work(node'.core) == Work(node.core) && node'.core.first == node.core.first
    && node'.made == node.made && node'.replies == node.replies
    && node'.localDone == node.localDone && node'.remoteDone == node.remoteDone
    && (forall n :: n in node'.core.tasks ==> n < node'.core.next)
  }

  /** Nothing that a chain depends on has changed. */
  ghost predicate SameChains(s: State, s': State) {
    && s'.chains == s.chains
    && (forall c :: c in s.nodes ==> c in s'.nodes && SameNode(s.nodes[c], s'.nodes[c]))
    && (forall c :: c in s'.nodes && c !in s.nodes ==>
          s'.nodes[c].core.tasks == map[] && s'.nodes[c].made == map[] && s'.nodes[c].replies == map[]
          && s'.nodes[c].localDone == s'.nodes[c].remoteDone == multiset{})
    && (forall c :: c in s.streams ==> c in s'.streams && s'.streams[c].order == s.streams[c].order)
    && SameChans(s.hub, s'.hub)
  }

  ghost predicate SameChans(h: Hub, h': Hub) {
    && (forall key :: key in h.chans ==>
          key in h'.chans && h'.chans[key].log == h.chans[key].log && h'.chans[key].read == h.chans[key].read)
    && (forall key :: key in h'.chans && key !in h.chans ==> |h'.chans[key].log| == 1)
  }

  lemma PairFact(s: State, p: Pair)
    requires ChainsOk(s)
    ensures p in s.chains ==> PairOk(s, p)
  {
  }

  lemma TaskFact(s: State, c: Id, n: nat, t: Client.Task)
    requires TasksOk(s)
    ensures HasTask(s, c, n, t) ==> n < s.nodes[c].core.next && TaskOk(s, c, n, t)
  {
  }

  lemma MessageFact(s: State, key: Key, i: nat, x: Signal)
    requires MessagesOk(s)
    ensures InChan(s, key, i, x) ==> MessageOk(s, key, i, x)
  {
  }

  lemma ReplyFact(s: State, c: Id, j: nat)
    requires RecordsOk(s)
    ensures c in s.nodes && j in s.nodes[c].replies ==> ReplyOk(s, c, j)
  {
  }

  lemma SameChainsKept(s: State, s': State)
    requires ChainInv(s) && SameChains(s, s')
    ensures ChainInv(s')
  {
    forall c, n | c in s'.nodes && n in s'.nodes[c].core.tasks
      ensures n < s'.nodes[c].core.next && TaskOk(s', c, n, s'.nodes[c].core.tasks[n])
    {
      if !Client.IsListener(s'.nodes[c].core.tasks[n]) {
        assert n in Work(s'.nodes[c].core);
        assert n in Work(s.nodes[c].core);
      }
    }
    forall p | p in s'.chains ensures ChainOk(s', p) {
      assert ChainOk(s, p);
      SameStage(s, s', p);
    }
  }

  lemma SameTask(s: State, s': State, c: Id, n: nat, t: Client.Task)
    requires SameChains(s, s') && HasTask(s, c, n, t) && !Client.IsListener(t)
    ensures HasTask(s', c, n, t)
  {
    assert n in Work(s.nodes[c].core);
    assert n in Work(s'.nodes[c].core);
  }

  lemma SameStage(s: State, s': State, p: Pair)
    requires SameChains(s, s') && p in s.chains && ChainOk(s, p)
    ensures ChainOk(s', p)
  {
    match s.chains[p]
    case Creating(n) => SameTask(s, s', p.offerer, n, Client.CreateOffer(p.answerer));
    case Answering(j, n) =>
      SameTask(s, s', p.answerer, n, Client.ReceiveOffer(p.offerer, s.nodes[p.offerer].made[p.answerer], j));
    case Answered(j, k, loc, rem) =>
      if loc.Applying? {
        SameTask(s, s', p.offerer, loc.n, Client.ReceiveAnswer(p.answerer, s.nodes[p.answerer].replies[j], k));
      }
      if loc.LocalCompleting? {
        SameTask(s, s', p.offerer, loc.n, Client.LocalCplt(p.answerer));
      }
      if rem.RemoteCompleting? {
        SameTask(s, s', p.answerer, rem.n, Client.RemoteCplt(p.offerer));
      }
    case _ =>
  }

  /** Events that leave every chain where it is. */
  predicate Idle(e: Event) {
    || e.Advertise? || e.OpenPeer? || e.Open? || e.PumpPeer? || e.Forward? || e.SyncReply? || e.Take?
    || e.Stop? || e.Teardown? || e.Drop?
  }

  /** Only client `c` acted, and on nothing that a chain depends on. */
  ghost predicate ActedIdly(s: State, s': State, c: Id) {
    && c in s.nodes && c in s'.nodes && s'.nodes == s.nodes[c := s'.nodes[c]]
    && SameNode(s.nodes[c], s'.nodes[c]) && s'.chains == s.chains && SameChans(s.hub, s'.hub)
    && forall x :: x in s.streams ==> x in s'.streams && s'.streams[x].order == s.streams[x].order
  }

  lemma ActorIdle(s: State, s': State, c: Id)
    requires TasksOk(s) && ActedIdly(s, s', c)
    ensures SameChains(s, s')
  {
  }

  lemma OpenIdle(s: State, c: Id, side: Side)
    requires HubInv(s.hub) && Enabled(s, Open(c, side)) && NodeOk(c, s.nodes[c])
    ensures ActedIdly(s, DoOpen(s, c, side), c)
  {
  }

  lemma SyncReplyIdle(s: State, c: Id)
    requires Enabled(s, SyncReply(c)) && At(s, c) && TasksBelow(s.nodes[c])
    ensures ActedIdly(s, DoSyncReply(s, c), c)
  {
  }

  ghost predicate TasksBelow(node: Node) {
    forall n :: n in node.core.tasks ==> n < node.core.next
  }

  lemma TakeIdle(s: State, c: Id, n: nat)
    requires Enabled(s, Take(c, n)) && TasksBelow(s.nodes[c])
    ensures ActedIdly(s, DoTake(s, c, n), c)
  {
  }

  lemma StopIdle(s: State, c: Id)
    requires Enabled(s, Stop(c)) && TasksBelow(s.nodes[c])
    ensures ActedIdly(s, Halt(s, c), c)
  {
  }

  lemma OpenPeerIdle(s: State, c: Id, order: seq<Id>)
    requires Enabled(s, OpenPeer(c, order)) && TasksBelow(s.nodes[c]) && c !in s.streams
    ensures ActedIdly(s, DoOpenPeer(s, c, order), c)
  {
  }

  /** Reading a later peer message only requeues the listener task. */
  lemma LaterMessageIdle(s: State, c: Id, n: nat)
    requires Enabled(s, StepPeer(c, n)) && TasksBelow(s.nodes[c])
    requires !s.nodes[c].core.first || s.streams[c].wire[0].DataLoss?
    ensures ActedIdly(s, DoStepPeer(s, c, n), c)
  {
    PeerEventIdle(s.nodes[c], s.hub, n, s.streams[c].wire[0]);
  }

  lemma PeerEventIdle(node: Node, h: Hub, n: nat, event: PeerEvent)
    requires n in node.core.tasks && node.core.tasks[n].PeerListener? && TasksBelow(node)
    requires !node.core.first || event.DataLoss?
    ensures SameNode(node, OnPeerEvent(node, h, n, event))
  {
  }

  lemma ChannelIdle(s: State, key: Key, ch: Chan)
    requires TasksOk(s) && key in s.hub.chans && ch.log == s.hub.chans[key].log && ch.read == s.hub.chans[key].read
    ensures SameChains(s, SetChan(s, key, ch))
  {
  }

  lemma ServerIdle(s: State, e: Event)
    requires TasksOk(s) && Enabled(s, e) && (e.Forward? || e.Teardown? || e.Drop? || e.PumpPeer?)
    ensures SameChains(s, Apply(s, e))
  {
    match e
    case Forward(key) => ChannelIdle(s, key, s.hub.chans[key].(fwd := s.hub.chans[key].fwd + 1));
    case Drop(key) => ChannelIdle(s, key, s.hub.chans[key].(alive := false));
    case Teardown(id) =>
    case PumpPeer(c) =>
  }

  lemma AdvertiseIdle(s: State)
    requires ChainInv(s) && HubInv(s.hub) && s.hub.gen < ID_SPACE && s.hub.gen !in s.nodes
    ensures SameChains(s, DoAdvertise(s))
  {
    AdvertiseKeeps(s.hub);
    NewcomerIdle(s, DoAdvertise(s));
  }

  lemma NewcomerIdle(s: State, s': State)
    requires TasksOk(s) && s.hub.gen !in s.nodes && s'.nodes == s.nodes[s.hub.gen := NewNode(s.hub.gen)]
    requires s'.streams == s.streams && s'.chains == s.chains && s'.hub.chans == s.hub.chans
    ensures SameChains(s, s')
  {
  }

  lemma ActorsIdle(s: State, e: Event)
    requires HubInv(s.hub) && Enabled(s, e) && (e.Open? || e.SyncReply? || e.Take? || e.Stop? || e.OpenPeer?)
    requires At(s, ActorOf(e).value) && TasksBelow(s.nodes[ActorOf(e).value])
    ensures ActedIdly(s, Apply(s, e), ActorOf(e).value)
  {
    hide HubInv, StreamOk, DiscoveryOk, ActedIdly, TasksBelow;
    match e
    case Open(c, side) => OpenIdle(s, c, side);
    case SyncReply(c) => SyncReplyIdle(s, c);
    case Take(c, n) => TakeIdle(s, c, n);
    case Stop(c) => StopIdle(s, c);
    case OpenPeer(c, order) => OpenPeerIdle(s, c, order);
  }

  lemma IdleSame(s: State, e: Event)
    requires ChainInv(s) && DiscoveryInv(s) && Enabled(s, e) && Idle(e)
    ensures SameChains(s, Apply(s, e))
  {
    hide ChainsOk, MessagesOk, RecordsOk, SameChains, ActedIdly, StreamOk, DiscoveryOk;
    if e.Advertise? {
      AdvertiseIdle(s);
    } else if e.Forward? || e.Teardown? || e.Drop? || e.PumpPeer? {
      ServerIdle(s, e);
    } else {
      EnabledActor(s, e);
      assert At(s, ActorOf(e).value) && TasksBelow(s.nodes[ActorOf(e).value]);
      ActorsIdle(s, e);
      ActorIdle(s, Apply(s, e), ActorOf(e).value);
    }
  }

  lemma IdleKept(s: State, e: Event)
    requires ChainInv(s) && DiscoveryInv(s) && Enabled(s, e) && Idle(e)
    ensures ChainInv(Apply(s, e))
  {
    IdleSame(s, e);
    SameChainsKept(s, Apply(s, e));
  }

  /** The chain that a task belongs to. */
  function TaskPair(c: Id, t: Client.Task): Pair
    requires !Client.IsListener(t)
  {
    if t.ReceiveOffer? || t.RemoteCplt? then Pair(t.remote, c) else Pair(c, t.remote)
  }

  /** The chain that a signal belongs to. */
  function SignalPair(key: Key, x: Signal): Pair {
    if key.side == OfferSide then Pair(x.sender, key.id) else Pair(key.id, x.sender)
  }

  /** Tasks of chains outside `ps` are the same in both states. */
  ghost predicate SameTasksElsewhere(s: State, s': State, ps: set<Pair>) {
    && (forall c, n: nat, t :: !Client.IsListener(t) && TaskPair(c, t) !in ps ==> (HasTask(s, c, n, t) <==> HasTask(s', c, n, t)))
    && (forall c :: c in s'.nodes ==> TasksBelow(s'.nodes[c]))
  }

  ghost predicate SameRecordsElsewhere(s: State, s': State, ps: set<Pair>) {
    && s'.nodes.Keys == s.nodes.Keys
    && (forall c :: c in s.nodes && !s.nodes[c].core.first ==> !s'.nodes[c].core.first)
    && (forall o, t :: o in s.nodes && Pair(o, t) !in ps ==>
          (t in s.nodes[o].made <==> t in s'.nodes[o].made)
          && (t in s.nodes[o].made ==> s'.nodes[o].made[t] == s.nodes[o].made[t]))
    && (forall t, j :: t in s.nodes && j in s.nodes[t].replies ==>
          j in s'.nodes[t].replies && s'.nodes[t].replies[j] == s.nodes[t].replies[j])
    && (forall x :: x in s.streams ==> x in s'.streams && s'.streams[x].order == s.streams[x].order)
  }

  ghost predicate SameMessagesElsewhere(s: State, s': State, ps: set<Pair>) {
    && s'.hub.chans.Keys == s.hub.chans.Keys
    && (forall key :: key in s.hub.chans ==> s.hub.chans[key].log <= s'.hub.chans[key].log)
    && (forall key, i: nat, x :: InChan(s', key, i, x) && SignalPair(key, x) !in ps ==>
          InChan(s, key, i, x) && (WasRead(s', key, i) <==> WasRead(s, key, i)))
  }

  ghost predicate Elsewhere(s: State, s': State, ps: set<Pair>) {
    && (forall p :: p !in ps ==> (p in s'.chains <==> p in s.chains) && (p in s.chains ==> s'.chains[p] == s.chains[p]))
    && SameTasksElsewhere(s, s', ps) && SameRecordsElsewhere(s, s', ps) && SameMessagesElsewhere(s, s', ps)
  }

  lemma TaskElsewhere(s: State, s': State, ps: set<Pair>, c: Id, n: nat, t: Client.Task)
    requires SameTasksElsewhere(s, s', ps) && HasTask(s, c, n, t) && !Client.IsListener(t) && TaskPair(c, t) !in ps
    ensures HasTask(s', c, n, t)
  {
  }

  lemma OfferElsewhere(s: State, s': State, ps: set<Pair>, p: Pair, j: nat)
    requires SameRecordsElsewhere(s, s', ps) && SameMessagesElsewhere(s, s', ps) && p !in ps && OfferAt(s, p, j)
    ensures OfferAt(s', p, j) && s'.nodes[p.offerer].made[p.answerer] == s.nodes[p.offerer].made[p.answerer]
    ensures WasRead(s', Key(OfferSide, p.answerer), j) <==> WasRead(s, Key(OfferSide, p.answerer), j)
  {
  }

  lemma AnswerElsewhere(s: State, s': State, ps: set<Pair>, p: Pair, j: nat, k: nat)
    requires SameRecordsElsewhere(s, s', ps) && SameMessagesElsewhere(s, s', ps) && p !in ps && AnswerAt(s, p, j, k)
    ensures AnswerAt(s', p, j, k) && s'.nodes[p.answerer].replies[j] == s.nodes[p.answerer].replies[j]
    ensures WasRead(s', Key(AnswerSide, p.offerer), k) <==> WasRead(s, Key(AnswerSide, p.offerer), k)
  {
  }

  lemma AnsweredElsewhere(s: State, s': State, ps: set<Pair>, p: Pair, j: nat, k: nat, loc: Local, rem: Remote)
    requires SameTasksElsewhere(s, s', ps) && SameRecordsElsewhere(s, s', ps) && SameMessagesElsewhere(s, s', ps) && p !in ps
    requires AnswerAt(s, p, j, k) && LocalOk(s, p, j, k, loc) && RemoteOk(s, p, rem)
    ensures AnswerAt(s', p, j, k) && LocalOk(s', p, j, k, loc) && RemoteOk(s', p, rem)
  {
    AnswerElsewhere(s, s', ps, p, j, k);
    if loc.Applying? {
      TaskElsewhere(s, s', ps, p.offerer, loc.n, Client.ReceiveAnswer(p.answerer, s.nodes[p.answerer].replies[j], k));
    }
    if loc.LocalCompleting? {
      TaskElsewhere(s, s', ps, p.offerer, loc.n, Client.LocalCplt(p.answerer));
    }
    if rem.RemoteCompleting? {
      TaskElsewhere(s, s', ps, p.answerer, rem.n, Client.RemoteCplt(p.offerer));
    }
    hide SameTasksElsewhere, SameRecordsElsewhere, SameMessagesElsewhere, AnswerAt;
  }

  lemma StageElsewhere(s: State, s': State, ps: set<Pair>, p: Pair)
    requires Elsewhere(s, s', ps) && p !in ps && p in s.chains && ChainOk(s, p)
    ensures ChainOk(s', p)
  {
    hide SameTasksElsewhere, SameMessagesElsewhere, OfferAt, AnswerAt, LocalOk, RemoteOk;
    match s.chains[p]
    case Creating(n) => TaskElsewhere(s, s', ps, p.offerer, n, Client.CreateOffer(p.answerer));
    case OfferRefused(_) =>
    case OfferSent(j) => OfferElsewhere(s, s', ps, p, j);
    case Answering(j, n) =>
      OfferElsewhere(s, s', ps, p, j);
      TaskElsewhere(s, s', ps, p.answerer, n, Client.ReceiveOffer(p.offerer, s.nodes[p.offerer].made[p.answerer], j));
    case AnswerRefused(j, _) => OfferElsewhere(s, s', ps, p, j);
    case Answered(j, k, loc, rem) =>
      OfferElsewhere(s, s', ps, p, j);
      AnsweredElsewhere(s, s', ps, p, j, k, loc, rem);
  }

  /** The chains in `ps` only move forward. */
  ghost predicate Forward(s: State, s': State, ps: set<Pair>) {
    forall p :: p in ps && p in s.chains ==>
      && p in s'.chains
      && (!s.chains[p].Creating? ==> !s'.chains[p].Creating?)
      && (forall j :: Replied(s.chains[p], j) ==> Replied(s'.chains[p], j))
  }

  ghost predicate TasksInOrder(s': State, ps: set<Pair>) {
    forall c, n: nat, t :: HasTask(s', c, n, t) && !Client.IsListener(t) && TaskPair(c, t) in ps ==> TaskOk(s', c, n, t)
  }

  ghost predicate MessagesInOrder(s': State, ps: set<Pair>) {
    forall key, i: nat, x :: InChan(s', key, i, x) && SignalPair(key, x) in ps ==> MessageOk(s', key, i, x)
  }

  ghost predicate NewRecordsInOrder(s: State, s': State) {
    && (forall o, t :: o in s.nodes && o in s'.nodes && t in s'.nodes[o].made && t !in s.nodes[o].made ==> MadeOk(s', o, t))
    && (forall t, j :: t in s.nodes && t in s'.nodes && j in s'.nodes[t].replies && j !in s.nodes[t].replies ==> ReplyOk(s', t, j))
  }

  /** Everything that belongs to the chains in `ps` is in order. */
  ghost predicate InOrder(s: State, s': State, ps: set<Pair>) {
    && (forall p :: p in ps && p in s'.chains ==> ChainOk(s', p))
    && TasksInOrder(s', ps) && MessagesInOrder(s', ps) && NewRecordsInOrder(s, s')
  }

  lemma TasksElsewhere(s: State, s': State, ps: set<Pair>)
    requires TasksOk(s) && Elsewhere(s, s', ps) && InOrder(s, s', ps)
    ensures TasksOk(s')
  {
    forall c, n | c in s'.nodes && n in s'.nodes[c].core.tasks
      ensures n < s'.nodes[c].core.next && TaskOk(s', c, n, s'.nodes[c].core.tasks[n])
    {
      var t := s'.nodes[c].core.tasks[n];
      assert TasksBelow(s'.nodes[c]);
      assert HasTask(s', c, n, t);
      if !Client.IsListener(t) && TaskPair(c, t) !in ps {
        assert HasTask(s, c, n, t);
      }
    }
  }

  lemma MessagesElsewhere(s: State, s': State, ps: set<Pair>)
    requires MessagesOk(s) && Elsewhere(s, s', ps) && InOrder(s, s', ps)
    ensures MessagesOk(s')
  {
    forall key, i | key in s'.hub.chans && 1 <= i < |s'.hub.chans[key].log| && s'.hub.chans[key].log[i].Some?
      ensures MessageOk(s', key, i, s'.hub.chans[key].log[i].value)
    {
      assert InChan(s', key, i, s'.hub.chans[key].log[i].value);
    }
  }

  lemma RecordsElsewhere(s: State, s': State, ps: set<Pair>)
    requires RecordsOk(s) && Elsewhere(s, s', ps) && InOrder(s, s', ps) && Forward(s, s', ps)
    ensures RecordsOk(s')
  {
  }

  lemma ElsewhereKept(s: State, s': State, ps: set<Pair>)
    requires ChainInv(s) && Elsewhere(s, s', ps) && InOrder(s, s', ps) && Forward(s, s', ps)
    ensures ChainInv(s')
  {
    TasksElsewhere(s, s', ps);
    MessagesElsewhere(s, s', ps);
    RecordsElsewhere(s, s', ps);
    forall p | p in s'.chains ensures ChainOk(s', p) {
      if p !in ps {
        StageElsewhere(s, s', ps, p);
      }
    }
  }

  /** A chain moved on, and its own invariant holds again. */
  ghost predicate MovesOn(s: State, s': State, p: Pair) {
    && p in s.chains && p in s'.chains && s'.chains == s.chains[p := s'.chains[p]]
    && (!s.chains[p].Creating? ==> !s'.chains[p].Creating?)
    && (forall j :: Replied(s.chains[p], j) ==> Replied(s'.chains[p], j))
  }

  lemma MovesOnKept(s: State, s': State, p: Pair)
    requires ChainInv(s) && MovesOn(s, s', p) && ChainOk(s', p) && TasksInOrder(s', {p}) && MessagesInOrder(s', {p})
    requires NewRecordsInOrder(s, s')
    requires SameTasksElsewhere(s, s', {p}) && SameRecordsElsewhere(s, s', {p}) && SameMessagesElsewhere(s, s', {p})
    ensures ChainInv(s')
  {
    hide ChainInv, ChainOk, TasksInOrder, MessagesInOrder, NewRecordsInOrder;
    hide SameTasksElsewhere, SameRecordsElsewhere, SameMessagesElsewhere;
    ElsewhereKept(s, s', {p});
  }

  lemma NoChainsYet(s: State, c: Id, t: Id)
    requires ChainInv(s) && c in s.nodes && s.nodes[c].core.first
    ensures Pair(c, t) !in s.chains
  {
  }

  lemma ListedPeersExist(s: State, c: Id, t: Id)
    requires DiscoveryInv(s) && c in s.streams && t in s.streams[c].order
    ensures t in s.nodes && t != c
  {
    assert At(s, c);
    FoldWasAdded(s.hub.log[..s.streams[c].start], t);
    assert Add(t) in s.hub.log;
  }

  lemma {:induction false} FoldWasAdded(log: seq<Change>, id: Id)
    requires id in Fold({}, log)
    ensures Add(id) in log
    decreases |log|
  {
    if log[|log| - 1] != Add(id) {
      FoldWasAdded(log[..|log| - 1], id);
    }
  }

  function Targets(c: Id, order: seq<Id>): set<Pair> {
    set t | t in order :: Pair(c, t)
  }

  /** The tasks after the first message: the old ones, the listener again, and the new offers. */
  ghost predicate OffersQueued(core: Client.Core, core': Client.Core, n: nat, order: seq<Id>) {
    && core'.next == core.next + 1 + |order| && !core'.first
    && (forall m: nat :: m in core'.tasks <==> (m in core.tasks && m != n) || core.next <= m < core'.next)
    && (forall m: nat :: m in core'.tasks ==> core'.tasks[m] == QueuedTask(core, order, m))
  }

  function QueuedTask(core: Client.Core, order: seq<Id>, m: nat): Client.Task {
    if m < core.next && m in core.tasks then core.tasks[m]
    else if core.next < m <= core.next + |order| then Client.CreateOffer(order[m - core.next - 1])
    else Client.PeerListener
  }

  lemma OffersAreQueued(core: Client.Core, n: nat, d: set<Id>, order: seq<Id>)
    requires core.first && n in core.tasks && (forall m :: m in core.tasks ==> m < core.next)
    ensures var heard := Client.Queue(Client.Done(core, n), Client.PeerListener);
      OffersQueued(core, Client.FinishDiscovery(heard, d, Adds(order)), n, order)
  {
    AddedIdsOfAdds(order);
  }

  lemma FirstMessageCore(c: Id, node: Node, st: PeerStream, h: Hub, n: nat)
    requires HubInv(h) && node.core.id == c && StreamOk(c, node, st, h.log) && DiscoveryOk(c, node, st, h)
    requires node.core.first && node.phase == Running && st.wire != [] && TasksBelow(node) && n in node.core.tasks
    ensures st.wire[0] == Changes(Adds(st.order))
    ensures var node' := OnPeerEvent(node, h, n, st.wire[0]);
      node' == node.(core := node'.core) && OffersQueued(node.core, node'.core, n, st.order)
  {
    FirstMessageOk(c, node, st, h, n);
    OffersAreQueued(node.core, n, Elements(st.order), st.order);
  }

  /** What the first message does to the state. */
  ghost predicate Starts(s: State, s': State, c: Id, n: nat, order: seq<Id>) {
    && HasTask(s, c, n, Client.PeerListener) && s.nodes[c].core.first && TasksBelow(s.nodes[c])
    && c in s'.nodes && s'.nodes == s.nodes[c := s'.nodes[c]]
    && OffersQueued(s.nodes[c].core, s'.nodes[c].core, n, order)
    && s'.nodes[c] == s.nodes[c].(core := s'.nodes[c].core)
    && c in s.streams && c in s'.streams && s'.streams == s.streams[c := s'.streams[c]]
    && s.streams[c].order == s'.streams[c].order == order
    && s'.hub == s.hub
    && s'.chains == NoteOffers(s.chains, c, order, s.nodes[c].core.next + 1)
    && NoDuplicates(order) && (forall t :: t in order ==> t in s.nodes && t != c)
  }

  lemma ListedOnce(s: State, c: Id)
    requires c in s.streams && c in s.nodes && At(s, c)
    ensures NoDuplicates(s.streams[c].order)
  {
  }

  lemma FirstMessageStartsAt(s: State, c: Id, n: nat)
    requires Enabled(s, StepPeer(c, n)) && s.nodes[c].core.first && HubInv(s.hub) && At(s, c) && TasksBelow(s.nodes[c])
    requires NoDuplicates(s.streams[c].order) && forall t :: t in s.streams[c].order ==> t in s.nodes && t != c
    ensures Starts(s, DoStepPeer(s, c, n), c, n, s.streams[c].order)
  {
    hide HubInv, StreamOk, DiscoveryOk, TasksBelow, OnPeerEvent, OffersQueued, DoStepPeer, Started, Heard;
    var st := s.streams[c];
    FirstMessageCore(c, s.nodes[c], st, s.hub, n);
    AddedIdsOfAdds(st.order);
    var node' := OnPeerEvent(s.nodes[c], s.hub, n, st.wire[0]);
    FirstIsOver(s.nodes[c].core, node'.core, n, st.order);
    StepPeerOutcome(s, c, n, Adds(st.order));
    StartedAsQueued(s.chains, s.nodes[c], n, node'.core, st.order);
    StartsAsQueued(s, DoStepPeer(s, c, n), c, n, st.(wire := st.wire[1..]), node');
  }

  lemma FirstIsOver(core: Client.Core, core': Client.Core, n: nat, order: seq<Id>)
    requires OffersQueued(core, core', n, order)
    ensures !core'.first
  {
  }

  lemma StartedAsQueued(chains: map<Pair, Chain>, node: Node, n: nat, after: Client.Core, order: seq<Id>)
    requires node.core.first && !after.first && AddedIds(Adds(order)) == order
    ensures Started(chains, Heard(node, n, Adds(order)).core, after, Adds(order)) == NoteOffers(chains, node.core.id, order, node.core.next + 1)
  {
    hide AddedIds, Adds, NoteOffers;
  }

  /** The state after the first message, as far as the client's new core goes. */
  lemma StepPeerOutcome(s: State, c: Id, n: nat, changes: seq<Change>)
    requires Enabled(s, StepPeer(c, n)) && s.streams[c].wire[0] == Changes(changes)
    ensures var node' := OnPeerEvent(s.nodes[c], s.hub, n, Changes(changes));
      DoStepPeer(s, c, n) == State(s.hub, s.streams[c := s.streams[c].(wire := s.streams[c].wire[1..])], s.nodes[c := node'],
        Started(s.chains, Heard(s.nodes[c], n, changes).core, node'.core, changes))
  {
    hide OnPeerEvent, Started, Heard;
  }

  lemma StartsAsQueued(s: State, s': State, c: Id, n: nat, st: PeerStream, node': Node)
    requires HasTask(s, c, n, Client.PeerListener) && c in s.streams && s.nodes[c].core.first && TasksBelow(s.nodes[c])
    requires st.order == s.streams[c].order && node' == s.nodes[c].(core := node'.core)
    requires OffersQueued(s.nodes[c].core, node'.core, n, st.order)
    requires NoDuplicates(st.order) && forall t :: t in st.order ==> t in s.nodes && t != c
    requires s' == State(s.hub, s.streams[c := st], s.nodes[c := node'], NoteOffers(s.chains, c, st.order, s.nodes[c].core.next + 1))
    ensures Starts(s, s', c, n, st.order)
  {
    hide HasTask, TasksBelow, NoDuplicates, OffersQueued, NoteOffers;
  }

  lemma FirstMessageStarts(s: State, c: Id, n: nat)
    requires DiscoveryInv(s) && ChainInv(s) && Enabled(s, StepPeer(c, n)) && s.nodes[c].core.first
    ensures Starts(s, DoStepPeer(s, c, n), c, n, s.streams[c].order)
  {
    hide ChainsOk, MessagesOk, RecordsOk, HubInv, Starts, StreamOk, DiscoveryOk;
    assert At(s, c) && TasksBelow(s.nodes[c]);
    forall t | t in s.streams[c].order ensures t in s.nodes && t != c {
      ListedPeersExist(s, c, t);
    }
    ListedOnce(s, c);
    FirstMessageStartsAt(s, c, n);
  }

  lemma FirstMessageTasks(s: State, s': State, c: Id, n: nat, order: seq<Id>)
    requires TasksOk(s) && Starts(s, s', c, n, order)
    ensures SameTasksElsewhere(s, s', Targets(c, order))
  {
    forall x, m: nat, t | !Client.IsListener(t) && TaskPair(x, t) !in Targets(c, order)
      ensures HasTask(s, x, m, t) <==> HasTask(s', x, m, t)
    {
      if x == c && s.nodes[c].core.next < m <= s.nodes[c].core.next + |order| {
        assert order[m - s.nodes[c].core.next - 1] in order;
      }
    }
  }

  lemma FirstMessagePair(s: State, s': State, c: Id, n: nat, order: seq<Id>, t: Id)
    requires Starts(s, s', c, n, order) && t in order
    ensures var i := IndexOf(order, t);
      Pair(c, t) in s'.chains && s'.chains[Pair(c, t)] == Creating(s.nodes[c].core.next + 1 + i)
      && HasTask(s', c, s.nodes[c].core.next + 1 + i, Client.CreateOffer(t))
    ensures ChainOk(s', Pair(c, t))
  {
  }

  lemma FirstMessageTaskOk(s: State, s': State, c: Id, n: nat, order: seq<Id>, x: Id, m: nat, t: Client.Task)
    requires ChainInv(s) && Starts(s, s', c, n, order)
    requires HasTask(s', x, m, t) && !Client.IsListener(t) && TaskPair(x, t) in Targets(c, order)
    ensures TaskOk(s', x, m, t)
  {
  }

  lemma FirstMessageInOrder(s: State, s': State, c: Id, n: nat, order: seq<Id>)
    requires ChainInv(s) && Starts(s, s', c, n, order)
    ensures InOrder(s, s', Targets(c, order))
  {
    forall p | p in Targets(c, order) && p in s'.chains ensures ChainOk(s', p) {
      FirstMessagePair(s, s', c, n, order, p.answerer);
    }
    forall x, m: nat, t | HasTask(s', x, m, t) && !Client.IsListener(t) && TaskPair(x, t) in Targets(c, order)
      ensures TaskOk(s', x, m, t)
    {
      FirstMessageTaskOk(s, s', c, n, order, x, m, t);
    }
    forall key, i: nat, x | InChan(s', key, i, x) ensures SignalPair(key, x) !in Targets(c, order) {
      NoChainsYet(s, c, SignalPair(key, x).answerer);
      MessageFact(s, key, i, x);
    }
  }

  lemma FirstMessageKept(s: State, c: Id, n: nat)
    requires DiscoveryInv(s) && ChainInv(s) && Enabled(s, StepPeer(c, n)) && s.nodes[c].core.first
    ensures ChainInv(DoStepPeer(s, c, n))
  {
    FirstMessageStarts(s, c, n);
    StartsKept(s, DoStepPeer(s, c, n), c, n, s.streams[c].order);
  }

  lemma StartsRecords(s: State, s': State, c: Id, n: nat, order: seq<Id>)
    requires Starts(s, s', c, n, order)
    ensures SameRecordsElsewhere(s, s', Targets(c, order)) && SameMessagesElsewhere(s, s', Targets(c, order))
  {
  }

  lemma StartsForward(s: State, s': State, c: Id, n: nat, order: seq<Id>)
    requires ChainInv(s) && Starts(s, s', c, n, order)
    ensures Forward(s, s', Targets(c, order))
    ensures forall p :: p !in Targets(c, order) ==> (p in s'.chains <==> p in s.chains) && (p in s.chains ==> s'.chains[p] == s.chains[p])
  {
  }

  lemma StartsElsewhere(s: State, s': State, c: Id, n: nat, order: seq<Id>)
    requires ChainInv(s) && Starts(s, s', c, n, order)
    ensures Elsewhere(s, s', Targets(c, order)) && Forward(s, s', Targets(c, order))
  {
    hide ChainsOk, TasksOk, MessagesOk, RecordsOk, Starts;
    hide SameTasksElsewhere, SameRecordsElsewhere, SameMessagesElsewhere, Forward, Targets;
    FirstMessageTasks(s, s', c, n, order);
    StartsRecords(s, s', c, n, order);
    StartsForward(s, s', c, n, order);
  }

  lemma StartsKept(s: State, s': State, c: Id, n: nat, order: seq<Id>)
    requires ChainInv(s) && Starts(s, s', c, n, order)
    ensures ChainInv(s')
  {
    FirstMessageInOrder(s, s', c, n, order);
    StartsElsewhere(s, s', c, n, order);
    ElsewhereKept(s, s', Targets(c, order));
  }

  /** A client acted on one chain: its task `n` is gone, and any new task belongs to that chain. */
  ghost predicate CoreWorked(core: Client.Core, core': Client.Core, c: Id, n: nat, p: Pair) {
    && core'.first == core.first && core.next <= core'.next
    && (forall m :: m in core.tasks ==> m < core.next) && (forall m :: m in core'.tasks ==> m < core'.next)
    && n in core.tasks && OfPair(c, core.tasks[n], p)
    && (forall m: nat :: m < core.next ==>
          (m in core'.tasks <==> m in core.tasks && m != n)
          && (m in core'.tasks ==> core'.tasks[m] == core.tasks[m]))
    && (forall m: nat :: m in core'.tasks && core.next <= m ==> OfPair(c, core'.tasks[m], p))
  }

  ghost predicate Worked(s: State, s': State, c: Id, n: nat, p: Pair) {
    && c in s.nodes && c in s'.nodes && s'.nodes == s.nodes[c := s'.nodes[c]] && s'.streams == s.streams
    && CoreWorked(s.nodes[c].core, s'.nodes[c].core, c, n, p)
  }

  predicate OfPair(c: Id, t: Client.Task, p: Pair) {
    Client.IsListener(t) || TaskPair(c, t) == p
  }

  lemma WorkedTasks(s: State, s': State, c: Id, n: nat, p: Pair)
    requires TasksOk(s) && Worked(s, s', c, n, p)
    ensures SameTasksElsewhere(s, s', {p})
  {
  }

  /** Sending either appends one message to the target's channel or leaves all channels alone. */
  lemma SendChans(h: Hub, side: Side, r: Id, x: Signal)
    requires HubInv(h)
    ensures var (h', sent) := Send(h, side, r, x);
      var key := Key(side, r);
      if sent.Ok? then
        && key in h.chans && 1 <= |h.chans[key].log| == LogLength(h, side, r) && h.chans[key].read <= |h.chans[key].log|
        && h'.chans == h.chans[key := h.chans[key].(log := h.chans[key].log + [Some(x)])]
      else h'.chans == h.chans
  {
  }

  lemma SentElsewhere(s: State, s': State, side: Side, r: Id, x: Signal, p: Pair)
    requires HubInv(s.hub) && s'.hub == Send(s.hub, side, r, x).0 && p == SignalPair(Key(side, r), x)
    ensures SameMessagesElsewhere(s, s', {p})
    ensures forall key, i: nat, y :: InChan(s', key, i, y) && !InChan(s, key, i, y) ==>
      key == Key(side, r) && y == x && i == LogLength(s.hub, side, r) && Send(s.hub, side, r, x).1.Ok?
  {
    SendChans(s.hub, side, r, x);
  }

  /** What completing a create-offer task does when the connection map accepts the connection. */
  ghost predicate Offers(s: State, s': State, c: Id, n: nat, r: Id, offer: Payload) {
    && Worked(s, s', c, n, Pair(c, r)) && s.nodes[c].core.tasks[n] == Client.CreateOffer(r)
    && s'.nodes[c].core.next == s.nodes[c].core.next
    && r !in s.nodes[c].conns
    && s'.nodes[c] == s.nodes[c].(core := s'.nodes[c].core, phase := After(Client.Forgive(Send(s.hub, OfferSide, r, Signal(c, offer)).1)),
         conns := s.nodes[c].conns[r := Some(LocalConn(r))], made := s.nodes[c].made[r := offer])
    && s'.hub == Send(s.hub, OfferSide, r, Signal(c, offer)).0
    && s'.chains == s.chains[Pair(c, r) := OfferStage(s.hub, c, r, offer)]
  }

  function OfferStage(h: Hub, c: Id, r: Id, offer: Payload): Chain {
    if Send(h, OfferSide, r, Signal(c, offer)).1.Ok? then OfferSent(LogLength(h, OfferSide, r))
    else OfferRefused(Judge(h, OfferSide, r))
  }

  lemma CreateOfferWorks(s: State, c: Id, n: nat, offer: Payload)
    requires TasksOk(s) && Enabled(s, StepCreateOffer(c, n, offer))
    ensures var s', r := DoStepCreateOffer(s, c, n, offer), TaskOf(s, c, n).remote;
      if r in s.nodes[c].conns then s' == MapError(s, c, ConnectionMap.Insert(s.nodes[c].conns, r, LocalConn(r)).0)
      else Offers(s, s', c, n, r, offer)
  {
  }

  lemma OffersRecords(s: State, s': State, c: Id, n: nat, r: Id, offer: Payload)
    requires Offers(s, s', c, n, r, offer)
    ensures SameRecordsElsewhere(s, s', {Pair(c, r)})
  {
  }

  lemma OffersStage(s: State, s': State, c: Id, n: nat, r: Id, offer: Payload)
    requires ChainInv(s) && HubInv(s.hub) && Offers(s, s', c, n, r, offer)
    ensures Pair(c, r) in s'.chains && ChainOk(s', Pair(c, r))
  {
    assert TaskOk(s, c, n, Client.CreateOffer(r));
    assert ChainOk(s, Pair(c, r));
    SendChans(s.hub, OfferSide, r, Signal(c, offer));
  }

  lemma OffersTasks(s: State, s': State, c: Id, n: nat, r: Id, offer: Payload)
    requires TasksOk(s) && MessagesOk(s) && RecordsOk(s) && Offers(s, s', c, n, r, offer)
    ensures TasksInOrder(s', {Pair(c, r)})
  {
  }

  lemma OffersMessages(s: State, s': State, c: Id, n: nat, r: Id, offer: Payload)
    requires HubInv(s.hub) && TasksOk(s) && MessagesOk(s) && RecordsOk(s) && Offers(s, s', c, n, r, offer)
    ensures MessagesInOrder(s', {Pair(c, r)}) && NewRecordsInOrder(s, s')
  {
    hide RecordsOk, TasksOk, MessagesOk, ReplyOk;
    var p, key0 := Pair(c, r), Key(OfferSide, r);
    TaskFact(s, c, n, Client.CreateOffer(r));
    SentElsewhere(s, s', OfferSide, r, Signal(c, offer), p);
    hide HubInv, Send;
    forall key, i: nat, x | InChan(s', key, i, x) && SignalPair(key, x) in {p} ensures MessageOk(s', key, i, x) {
      MessageFact(s, key, i, x);
    }
  }

  lemma OffersKept(s: State, s': State, c: Id, n: nat, r: Id, offer: Payload)
    requires ChainInv(s) && HubInv(s.hub) && Offers(s, s', c, n, r, offer)
    ensures ChainInv(s')
  {
    var p := Pair(c, r);
    TaskFact(s, c, n, Client.CreateOffer(r));
    OffersStage(s, s', c, n, r, offer);
    OffersTasks(s, s', c, n, r, offer);
    OffersMessages(s, s', c, n, r, offer);
    WorkedTasks(s, s', c, n, p);
    OffersRecords(s, s', c, n, r, offer);
    SentElsewhere(s, s', OfferSide, r, Signal(c, offer), p);
    hide ChainInv, ChainsOk, TasksOk, MessagesOk, RecordsOk, ChainOk, TasksInOrder, MessagesInOrder, NewRecordsInOrder;
    hide SameTasksElsewhere, SameRecordsElsewhere, SameMessagesElsewhere;
    MovesOnKept(s, s', p);
  }

  /** What completing a receive-offer task does when the connection map accepts the connection. */
  ghost predicate Answers(s: State, s': State, c: Id, n: nat, r: Id, j: nat, answer: Payload) {
    && Worked(s, s', c, n, Pair(r, c))
    && s.nodes[c].core.tasks[n].ReceiveOffer? && s.nodes[c].core.tasks[n].remote == r && s.nodes[c].core.tasks[n].at == j
    && r !in s.nodes[c].conns
    && s'.nodes[c] == s.nodes[c].(core := s'.nodes[c].core, phase := After(Client.Forgive(Send(s.hub, AnswerSide, r, Signal(c, answer)).1)),
         conns := s.nodes[c].conns[r := Some(RemoteConn(r))], replies := s.nodes[c].replies[j := answer])
    && s'.hub == Send(s.hub, AnswerSide, r, Signal(c, answer)).0
    && s'.chains == s.chains[Pair(r, c) := AnswerStage(s.hub, c, r, j, answer, s.nodes[c].core.next)]
    && (if Send(s.hub, AnswerSide, r, Signal(c, answer)).1.Ok? then
          s'.nodes[c].core.next == s.nodes[c].core.next + 1 && HasTask(s', c, s.nodes[c].core.next, Client.RemoteCplt(r))
        else s'.nodes[c].core.next == s.nodes[c].core.next)
  }

  function AnswerStage(h: Hub, c: Id, r: Id, j: nat, answer: Payload, next: nat): Chain {
    if Send(h, AnswerSide, r, Signal(c, answer)).1.Ok? then Answered(j, LogLength(h, AnswerSide, r), Unread, RemoteCompleting(next))
    else AnswerRefused(j, Judge(h, AnswerSide, r))
  }

  lemma ReceiveOfferWorks(s: State, c: Id, n: nat, answer: Payload)
    requires TasksOk(s) && Enabled(s, StepReceiveOffer(c, n, answer))
    ensures var s', r, j := DoStepReceiveOffer(s, c, n, answer), TaskOf(s, c, n).remote, TaskOf(s, c, n).at;
      if r in s.nodes[c].conns then s' == MapError(s, c, ConnectionMap.Insert(s.nodes[c].conns, r, RemoteConn(r)).0)
      else Answers(s, s', c, n, r, j, answer)
  {
  }

  /** While an offer is being answered, only that task and that offer belong to its chain. */
  ghost predicate OnlyAnswering(s: State, p: Pair, j: nat, n: nat) {
    && p in s.chains && s.chains[p] == Answering(j, n)
    && (forall c, m: nat, t :: HasTask(s, c, m, t) && !Client.IsListener(t) && TaskPair(c, t) == p ==> c == p.answerer && m == n)
    && (forall key, i: nat, x :: InChan(s, key, i, x) && SignalPair(key, x) == p ==> key == Key(OfferSide, p.answerer) && i == j)
    && (p.answerer in s.nodes ==> j !in s.nodes[p.answerer].replies)
    && InChan(s, Key(OfferSide, p.answerer), j, Signal(p.offerer, OfferOf(s, p)))
  }

  function OfferOf(s: State, p: Pair): Payload {
    if p.offerer in s.nodes && p.answerer in s.nodes[p.offerer].made then s.nodes[p.offerer].made[p.answerer] else ""
  }

  lemma AnsweringHasLittle(s: State, c: Id, n: nat, r: Id, off: Payload, j: nat)
    requires ChainInv(s) && HasTask(s, c, n, Client.ReceiveOffer(r, off, j))
    ensures OnlyAnswering(s, Pair(r, c), j, n)
  {
    var p := Pair(r, c);
    assert TaskOk(s, c, n, Client.ReceiveOffer(r, off, j));
    forall x, m: nat, t | HasTask(s, x, m, t) && !Client.IsListener(t) && TaskPair(x, t) == p
      ensures x == p.answerer && m == n
    {
      assert TaskOk(s, x, m, t);
    }
    forall key, i: nat, x | InChan(s, key, i, x) && SignalPair(key, x) == p
      ensures key == Key(OfferSide, p.answerer) && i == j
    {
      assert MessageOk(s, key, i, x);
    }
    assert ChainOk(s, p);
    ReplyFact(s, c, j);
  }

  lemma AnswersRecords(s: State, s': State, c: Id, n: nat, r: Id, j: nat, answer: Payload)
    requires OnlyAnswering(s, Pair(r, c), j, n) && Answers(s, s', c, n, r, j, answer)
    ensures SameRecordsElsewhere(s, s', {Pair(r, c)})
  {
  }

  lemma AnswersStage(s: State, s': State, c: Id, n: nat, r: Id, j: nat, answer: Payload)
    requires ChainInv(s) && HubInv(s.hub) && Answers(s, s', c, n, r, j, answer)
    ensures Pair(r, c) in s'.chains && ChainOk(s', Pair(r, c))
  {
    assert TaskOk(s, c, n, s.nodes[c].core.tasks[n]);
    assert ChainOk(s, Pair(r, c));
    SendChans(s.hub, AnswerSide, r, Signal(c, answer));
  }

  lemma AnswersTasks(s: State, s': State, c: Id, n: nat, r: Id, j: nat, answer: Payload)
    requires OnlyAnswering(s, Pair(r, c), j, n) && Answers(s, s', c, n, r, j, answer)
    ensures TasksInOrder(s', {Pair(r, c)})
  {
    forall x, m: nat, t | HasTask(s', x, m, t) && !Client.IsListener(t) && TaskPair(x, t) in {Pair(r, c)}
      ensures TaskOk(s', x, m, t)
    {
      if m < s.nodes[c].core.next || x != c {
        assert HasTask(s, x, m, t);
      }
    }
  }

  lemma AnswersMessages(s: State, s': State, c: Id, n: nat, r: Id, j: nat, answer: Payload)
    requires OnlyAnswering(s, Pair(r, c), j, n) && HubInv(s.hub) && Answers(s, s', c, n, r, j, answer)
    ensures MessagesInOrder(s', {Pair(r, c)})
  {
    SentElsewhere(s, s', AnswerSide, r, Signal(c, answer), Pair(r, c));
  }

  lemma AnswersReply(s: State, s': State, c: Id, n: nat, r: Id, j: nat, answer: Payload)
    requires OnlyAnswering(s, Pair(r, c), j, n) && HubInv(s.hub) && Answers(s, s', c, n, r, j, answer)
    ensures NewRecordsInOrder(s, s')
  {
    SendChans(s.hub, AnswerSide, r, Signal(c, answer));
    assert ReplyOk(s', c, j);
  }

  lemma AnswersKept(s: State, s': State, c: Id, n: nat, r: Id, j: nat, answer: Payload)
    requires ChainInv(s) && HubInv(s.hub) && Answers(s, s', c, n, r, j, answer)
    ensures ChainInv(s')
  {
    var p := Pair(r, c);
    AnsweringHasLittle(s, c, n, r, s.nodes[c].core.tasks[n].payload, j);
    AnswersStage(s, s', c, n, r, j, answer);
    AnswersTasks(s, s', c, n, r, j, answer);
    AnswersMessages(s, s', c, n, r, j, answer);
    AnswersReply(s, s', c, n, r, j, answer);
    WorkedTasks(s, s', c, n, p);
    AnswersRecords(s, s', c, n, r, j, answer);
    SentElsewhere(s, s', AnswerSide, r, Signal(c, answer), p);
    hide ChainInv, ChainsOk, TasksOk, MessagesOk, RecordsOk, ChainOk, TasksInOrder, MessagesInOrder, NewRecordsInOrder;
    hide SameTasksElsewhere, SameRecordsElsewhere, SameMessagesElsewhere;
    MovesOnKept(s, s', p);
  }

  /** What a resolved offer or answer listener does: it reads message `i`, which is `x`. */
  ghost predicate Delivers(s: State, s': State, c: Id, n: nat, side: Side, i: nat, x: Signal) {
    var key := Key(side, c);
    && c in s.nodes && c in s'.nodes
    && var core, core' := s.nodes[c].core, s'.nodes[c].core;
    && Worked(s, s', c, n, SignalPair(key, x)) && core.tasks[n] == Client.Listener(side)
    && s'.nodes[c] == s.nodes[c].(core := core')
    && core'.next == core.next + 2 && core.next in core'.tasks && core'.tasks[core.next] == Client.Listener(side)
    && HasTask(s', c, core.next + 1,
         if side == OfferSide then Client.ReceiveOffer(x.sender, x.payload, i) else Client.ReceiveAnswer(x.sender, x.payload, i))
    && InChan(s, key, i, x) && s.hub.chans[key].read <= i
    && (forall m :: s.hub.chans[key].read <= m < i ==> s.hub.chans[key].log[m].None?)
    && s'.hub == s.hub.(chans := s.hub.chans[key := s.hub.chans[key].(read := i + 1)])
  }

  lemma ListenerCore(core: Client.Core, c: Id, n: nat, side: Side, x: Signal, i: nat)
    requires n in core.tasks && core.tasks[n] == Client.Listener(side) && (forall m :: m in core.tasks ==> m < core.next)
    ensures CoreWorked(core, Client.Step(core, n, Client.Received(x, i), [], Ok(())).0, c, n, SignalPair(Key(side, c), x))
  {
  }

  /** What a resolved listener reads, the next unread signal of its channel, and what it then does. */
  lemma ListenerReads(s: State, c: Id, n: nat) returns (side: Side, i: nat, x: Signal)
    requires Enabled(s, StepListener(c, n)) && HubInv(s.hub)
    ensures InChan(s, Key(side, c), i, x) && !WasRead(s, Key(side, c), i)
    ensures forall m :: s.hub.chans[Key(side, c)].read <= m < i ==> s.hub.chans[Key(side, c)].log[m].None?
    ensures TaskOf(s, c, n) == Client.Listener(side)
    ensures var s', core := DoStepListener(s, c, n), Client.Step(s.nodes[c].core, n, Client.Received(x, i), [], Ok(())).0;
      && s'.nodes == s.nodes[c := s.nodes[c].(core := core)] && s'.streams == s.streams
      && s'.hub == s.hub.(chans := s.hub.chans[Key(side, c) := s.hub.chans[Key(side, c)].(read := i + 1)])
      && s'.chains == DeliveredChains(s.chains, c, side, i, x, s.nodes[c].core.next + 1)
  {
    side := TaskOf(s, c, n).side;
    var ch := s.hub.chans[Key(side, c)];
    assert ChanOk(ch);
    hide HubInv;
    i := NextSignal(ch.log, ch.read, ch.fwd);
    x := ch.log[i].value;
  }

  lemma ListenerDelivers(s: State, c: Id, n: nat) returns (side: Side, i: nat, x: Signal)
    requires Enabled(s, StepListener(c, n)) && HubInv(s.hub) && TasksBelow(s.nodes[c])
    ensures Delivers(s, DoStepListener(s, c, n), c, n, side, i, x) && !WasRead(s, Key(side, c), i)
    ensures DoStepListener(s, c, n).chains == DeliveredChains(s.chains, c, side, i, x, s.nodes[c].core.next + 1)
  {
    side, i, x := ListenerReads(s, c, n);
    ListenerCore(s.nodes[c].core, c, n, side, x, i);
    hide CoreWorked, TasksBelow, HubInv, DoStepListener, DeliveredChains;
  }

  function DeliveredChains(chains: map<Pair, Chain>, c: Id, side: Side, i: nat, x: Signal, n: nat): map<Pair, Chain> {
    var p := SignalPair(Key(side, c), x);
    if side == OfferSide then chains[p := Answering(i, n)]
    else if p in chains && chains[p].Answered? then chains[p := chains[p].(loc := Applying(n))]
    else chains
  }

  lemma DeliversMessages(s: State, s': State, c: Id, n: nat, side: Side, i: nat, x: Signal)
    requires Delivers(s, s', c, n, side, i, x)
    ensures SameMessagesElsewhere(s, s', {SignalPair(Key(side, c), x)})
    ensures forall key, j: nat, y :: InChan(s', key, j, y) <==> InChan(s, key, j, y)
    ensures WasRead(s', Key(side, c), i) && !WasRead(s, Key(side, c), i)
    ensures forall key, j: nat :: key != Key(side, c) ==> (WasRead(s', key, j) <==> WasRead(s, key, j))
  {
  }

  lemma DeliversRecords(s: State, s': State, c: Id, n: nat, side: Side, i: nat, x: Signal)
    requires Delivers(s, s', c, n, side, i, x)
    ensures SameRecordsElsewhere(s, s', {SignalPair(Key(side, c), x)}) && NewRecordsInOrder(s, s')
  {
  }

  /** An unread offer is all that its chain consists of. */
  ghost predicate OnlyOffered(s: State, p: Pair, j: nat) {
    && p in s.chains && s.chains[p] == OfferSent(j)
    && (forall c, m: nat, t :: HasTask(s, c, m, t) && !Client.IsListener(t) ==> TaskPair(c, t) != p)
    && (forall key, i: nat, x :: InChan(s, key, i, x) && SignalPair(key, x) == p ==> key == Key(OfferSide, p.answerer) && i == j)
  }

  lemma UnreadOfferIsAll(s: State, c: Id, i: nat, x: Signal)
    requires ChainInv(s) && InChan(s, Key(OfferSide, c), i, x) && !WasRead(s, Key(OfferSide, c), i)
    ensures OnlyOffered(s, Pair(x.sender, c), i) && OfferAt(s, Pair(x.sender, c), i) && PairOk(s, Pair(x.sender, c))
  {
    hide ChainsOk, TasksOk, MessagesOk, RecordsOk, OfferAt, PairOk;
    var p := Pair(x.sender, c);
    UnreadOfferStage(s, c, i, x);
    forall r, m: nat, t | HasTask(s, r, m, t) && !Client.IsListener(t) ensures TaskPair(r, t) != p {
      TaskFact(s, r, m, t);
    }
    forall key, j: nat, y | InChan(s, key, j, y) && SignalPair(key, y) == p ensures key == Key(OfferSide, p.answerer) && i == j {
      MessageFact(s, key, j, y);
    }
  }

  lemma UnreadOfferStage(s: State, c: Id, i: nat, x: Signal)
    requires ChainsOk(s) && MessagesOk(s) && InChan(s, Key(OfferSide, c), i, x) && !WasRead(s, Key(OfferSide, c), i)
    ensures var p := Pair(x.sender, c); p in s.chains && s.chains[p] == OfferSent(i) && OfferAt(s, p, i) && PairOk(s, p)
  {
    MessageFact(s, Key(OfferSide, c), i, x);
    assert ChainOk(s, Pair(x.sender, c));
  }

  lemma OfferDelivered(s: State, s': State, c: Id, n: nat, i: nat, x: Signal)
    requires Delivers(s, s', c, n, OfferSide, i, x)
    requires OnlyOffered(s, Pair(x.sender, c), i) && OfferAt(s, Pair(x.sender, c), i) && PairOk(s, Pair(x.sender, c))
    requires s'.chains == DeliveredChains(s.chains, c, OfferSide, i, x, s.nodes[c].core.next + 1)
    ensures ChainOk(s', Pair(x.sender, c)) && MessagesInOrder(s', {Pair(x.sender, c)})
  {
    DeliversMessages(s, s', c, n, OfferSide, i, x);
  }

  lemma OfferDeliveredTasks(s: State, s': State, c: Id, n: nat, i: nat, x: Signal)
    requires Delivers(s, s', c, n, OfferSide, i, x) && OnlyOffered(s, Pair(x.sender, c), i)
    requires s'.chains == DeliveredChains(s.chains, c, OfferSide, i, x, s.nodes[c].core.next + 1)
    ensures TasksInOrder(s', {Pair(x.sender, c)})
  {
    forall y, m: nat, t | HasTask(s', y, m, t) && !Client.IsListener(t) && TaskPair(y, t) in {Pair(x.sender, c)}
      ensures TaskOk(s', y, m, t)
    {
      if m < s.nodes[c].core.next || y != c {
        assert HasTask(s, y, m, t);
      }
    }
  }

  lemma OfferDeliveryKept(s: State, s': State, c: Id, n: nat, i: nat, x: Signal)
    requires ChainInv(s) && Delivers(s, s', c, n, OfferSide, i, x)
    requires s'.chains == DeliveredChains(s.chains, c, OfferSide, i, x, s.nodes[c].core.next + 1)
    ensures ChainInv(s')
  {
    var p := Pair(x.sender, c);
    DeliversMessages(s, s', c, n, OfferSide, i, x);
    DeliversRecords(s, s', c, n, OfferSide, i, x);
    UnreadOfferIsAll(s, c, i, x);
    OfferDelivered(s, s', c, n, i, x);
    OfferDeliveredTasks(s, s', c, n, i, x);
    WorkedTasks(s, s', c, n, p);
    hide ChainInv, ChainsOk, TasksOk, MessagesOk, RecordsOk, ChainOk, TasksInOrder, MessagesInOrder, NewRecordsInOrder;
    hide SameTasksElsewhere, SameRecordsElsewhere, SameMessagesElsewhere;
    hide OfferAt;
    MovesOnKept(s, s', p);
  }

  /** The invariant of a single chain: its stage, its tasks and its signals. */
  ghost predicate Inside(s: State, p: Pair) {
    p in s.chains && ChainOk(s, p) && TasksInOrder(s, {p}) && MessagesInOrder(s, {p})
  }

  lemma InsideHolds(s: State, p: Pair)
    requires ChainInv(s) && p in s.chains
    ensures Inside(s, p)
  {
  }

  lemma MovedRecords(s: State, s': State, c: Id, n: nat, p: Pair)
    requires Worked(s, s', c, n, p)
    requires s'.nodes[c].made == s.nodes[c].made && s'.nodes[c].replies == s.nodes[c].replies
    ensures SameRecordsElsewhere(s, s', {p}) && NewRecordsInOrder(s, s')
  {
  }

  /** Reading the answer: it was unread, so no task of the offerer belonged to the chain. */
  lemma AnswerDelivered(s: State, s': State, c: Id, n: nat, i: nat, x: Signal)
    requires var p := Pair(c, x.sender); Inside(s, p) && s.chains[p].Answered? && s.chains[p].k == i
    requires Delivers(s, s', c, n, AnswerSide, i, x)
    requires s'.chains == DeliveredChains(s.chains, c, AnswerSide, i, x, s.nodes[c].core.next + 1)
    ensures Inside(s', Pair(c, x.sender))
  {
    var p := Pair(c, x.sender);
    DeliversMessages(s, s', c, n, AnswerSide, i, x);
    forall y, m: nat, t | HasTask(s', y, m, t) && !Client.IsListener(t) && TaskPair(y, t) in {p}
      ensures TaskOk(s', y, m, t)
    {
      if m < s.nodes[c].core.next || y != c {
        assert HasTask(s, y, m, t) && TaskOk(s, y, m, t);
      }
    }
  }

  lemma AnswerDeliveryKept(s: State, s': State, c: Id, n: nat, i: nat, x: Signal)
    requires ChainInv(s) && Delivers(s, s', c, n, AnswerSide, i, x)
    requires s'.chains == DeliveredChains(s.chains, c, AnswerSide, i, x, s.nodes[c].core.next + 1)
    ensures ChainInv(s')
  {
    var p := Pair(c, x.sender);
    MessageFact(s, Key(AnswerSide, c), i, x);
    InsideHolds(s, p);
    AnswerDelivered(s, s', c, n, i, x);
    DeliversMessages(s, s', c, n, AnswerSide, i, x);
    DeliversRecords(s, s', c, n, AnswerSide, i, x);
    WorkedTasks(s, s', c, n, p);
    hide ChainInv, ChainsOk, TasksOk, MessagesOk, RecordsOk, ChainOk, TasksInOrder, MessagesInOrder, NewRecordsInOrder;
    hide SameTasksElsewhere, SameRecordsElsewhere, SameMessagesElsewhere;
    MovesOnKept(s, s', p);
  }

  /** What completing a receive-answer task or a completion task does: the chain `p` moves on. */
  ghost predicate Completes(s: State, s': State, c: Id, n: nat, p: Pair) {
    && Worked(s, s', c, n, p) && s'.hub == s.hub
    && p in s.chains && s.chains[p].Answered?
    && var node, node', chain := s.nodes[c], s'.nodes[c], s.chains[p];
    && n in node.held
    && var node0 := node.(core := node'.core, held := node.held - {n});
    match node.core.tasks[n]
    case ReceiveAnswer(r, _, _) =>
      && p == Pair(c, r) && ConnectionMap.Place(node.conns, r, node.held[n]).1
      && node' == node0.(conns := node.conns[r := Some(node.held[n])])
      && node'.core.next == node.core.next + 1 && HasTask(s', c, node.core.next, Client.LocalCplt(r))
      && s'.chains == s.chains[p := chain.(loc := LocalCompleting(node.core.next))]
    case LocalCplt(r) =>
      && p == Pair(c, r) && node'.core.next == node.core.next && node' == node0.(localDone := node.localDone + multiset{r})
      && s'.chains == s.chains[p := chain.(loc := LocalDone)]
    case RemoteCplt(r) =>
      && p == Pair(r, c) && node'.core.next == node.core.next && node' == node0.(remoteDone := node.remoteDone + multiset{r})
      && s'.chains == s.chains[p := chain.(rem := RemoteDone)]
    case _ => false
  }

  lemma CompletesInside(s: State, s': State, c: Id, n: nat, p: Pair)
    requires Inside(s, p) && Completes(s, s', c, n, p)
    ensures ChainOk(s', p)
  {
    assert HasTask(s, c, n, s.nodes[c].core.tasks[n]);
    assert TaskOk(s, c, n, s.nodes[c].core.tasks[n]);
  }

  lemma CompletesTasks(s: State, s': State, c: Id, n: nat, p: Pair)
    requires Inside(s, p) && Completes(s, s', c, n, p)
    ensures TasksInOrder(s', {p}) && MessagesInOrder(s', {p})
  {
    assert HasTask(s, c, n, s.nodes[c].core.tasks[n]);
    assert TaskOk(s, c, n, s.nodes[c].core.tasks[n]);
    forall y, m: nat, t | HasTask(s', y, m, t) && !Client.IsListener(t) && TaskPair(y, t) in {p}
      ensures TaskOk(s', y, m, t)
    {
      if m < s.nodes[c].core.next || y != c {
        assert HasTask(s, y, m, t) && TaskOk(s, y, m, t);
      }
    }
    forall key, i: nat, x | InChan(s', key, i, x) && SignalPair(key, x) in {p} ensures MessageOk(s', key, i, x) {
      assert InChan(s, key, i, x) && MessageOk(s, key, i, x);
    }
  }

  lemma SameHubMessages(s: State, s': State, ps: set<Pair>)
    requires s'.hub == s.hub
    ensures SameMessagesElsewhere(s, s', ps)
  {
  }

  lemma CompletesKept(s: State, s': State, c: Id, n: nat, p: Pair)
    requires ChainInv(s) && Completes(s, s', c, n, p)
    ensures ChainInv(s')
  {
    hide ChainsOk, TasksOk, MessagesOk, RecordsOk, ChainOk, CoreWorked, HasTask, TasksInOrder, MessagesInOrder, NewRecordsInOrder, SameTasksElsewhere, SameRecordsElsewhere, SameMessagesElsewhere;
    InsideHolds(s, p);
    CompletesInside(s, s', c, n, p);
    CompletesTasks(s, s', c, n, p);
    MovedRecords(s, s', c, n, p);
    WorkedTasks(s, s', c, n, p);
    SameHubMessages(s, s', {p});
    MovesOnKept(s, s', p);
  }

  lemma ReceiveAnswerCompletes(s: State, c: Id, n: nat)
    requires TasksOk(s) && Enabled(s, StepReceiveAnswer(c, n))
    ensures var s', r := DoStepReceiveAnswer(s, c, n), TaskOf(s, c, n).remote;
      if ConnectionMap.Place(s.nodes[c].conns, r, s.nodes[c].held[n]).1 then Completes(s, s', c, n, Pair(c, r))
      else s' == MapError(s, c, ConnectionMap.Place(s.nodes[c].conns, r, s.nodes[c].held[n]).0)
  {
    assert TaskOk(s, c, n, TaskOf(s, c, n));
  }

  lemma CpltCompletes(s: State, c: Id, n: nat)
    requires TasksOk(s) && Enabled(s, StepCplt(c, n))
    ensures Completes(s, DoStepCplt(s, c, n), c, n, TaskPair(c, TaskOf(s, c, n)))
  {
  }

  /** A failed connection map only stops the client. */
  lemma MapErrorSame(s: State, c: Id, conns: map<Id, Option<Conn>>)
    requires ChainInv(s) && c in s.nodes
    ensures SameChains(s, MapError(s, c, conns))
  {
  }

  lemma MapErrorKept(s: State, c: Id, conns: map<Id, Option<Conn>>)
    requires ChainInv(s) && c in s.nodes
    ensures ChainInv(MapError(s, c, conns))
  {
    MapErrorSame(s, c, conns);
    SameChainsKept(s, MapError(s, c, conns));
  }

  lemma LaterMessageSame(s: State, c: Id, n: nat)
    requires ChainInv(s) && Enabled(s, StepPeer(c, n)) && !s.nodes[c].core.first
    ensures SameChains(s, DoStepPeer(s, c, n))
  {
    assert TasksBelow(s.nodes[c]);
    LaterMessageIdle(s, c, n);
    ActorIdle(s, DoStepPeer(s, c, n), c);
  }

  lemma StepPeerChains(s: State, c: Id, n: nat)
    requires ChainInv(s) && DiscoveryInv(s) && Enabled(s, StepPeer(c, n))
    ensures ChainInv(DoStepPeer(s, c, n))
  {
    if s.nodes[c].core.first {
      FirstMessageKept(s, c, n);
    } else {
      LaterMessageSame(s, c, n);
      SameChainsKept(s, DoStepPeer(s, c, n));
    }
  }

  lemma ListenerChains(s: State, c: Id, n: nat)
    requires ChainInv(s) && HubInv(s.hub) && Enabled(s, StepListener(c, n))
    ensures ChainInv(DoStepListener(s, c, n))
  {
    assert TasksBelow(s.nodes[c]);
    hide ChainsOk, TasksOk, MessagesOk, RecordsOk, HubInv, Delivers;
    var side, i, x := ListenerDelivers(s, c, n);
    if side == OfferSide {
      OfferDeliveryKept(s, DoStepListener(s, c, n), c, n, i, x);
    } else {
      AnswerDeliveryKept(s, DoStepListener(s, c, n), c, n, i, x);
    }
  }

  lemma SignalChains(s: State, e: Event)
    requires ChainInv(s) && HubInv(s.hub) && Enabled(s, e) && (e.StepCreateOffer? || e.StepReceiveOffer?)
    ensures ChainInv(Apply(s, e))
  {
    match e
    case StepCreateOffer(c, n, offer) =>
      CreateOfferWorks(s, c, n, offer);
      var r := TaskOf(s, c, n).remote;
      if r in s.nodes[c].conns {
        MapErrorKept(s, c, ConnectionMap.Insert(s.nodes[c].conns, r, LocalConn(r)).0);
      } else {
        OffersKept(s, Apply(s, e), c, n, r, offer);
      }
    case StepReceiveOffer(c, n, answer) =>
      ReceiveOfferWorks(s, c, n, answer);
      var r := TaskOf(s, c, n).remote;
      if r in s.nodes[c].conns {
        MapErrorKept(s, c, ConnectionMap.Insert(s.nodes[c].conns, r, RemoteConn(r)).0);
      } else {
        AnswersKept(s, Apply(s, e), c, n, r, TaskOf(s, c, n).at, answer);
      }
  }

  lemma CompletionChains(s: State, e: Event)
    requires ChainInv(s) && Enabled(s, e) && (e.StepReceiveAnswer? || e.StepCplt?)
    ensures ChainInv(Apply(s, e))
  {
    match e
    case StepReceiveAnswer(c, n) =>
      ReceiveAnswerCompletes(s, c, n);
      var r := TaskOf(s, c, n).remote;
      if ConnectionMap.Place(s.nodes[c].conns, r, s.nodes[c].held[n]).1 {
        CompletesKept(s, Apply(s, e), c, n, Pair(c, r));
      } else {
        MapErrorKept(s, c, ConnectionMap.Place(s.nodes[c].conns, r, s.nodes[c].held[n]).0);
      }
    case StepCplt(c, n) =>
      CpltCompletes(s, c, n);
      CompletesKept(s, Apply(s, e), c, n, TaskPair(c, TaskOf(s, c, n)));
  }

  lemma ChainsKept(s: State, e: Event)
    requires ChainInv(s) && DiscoveryInv(s) && Enabled(s, e)
    ensures ChainInv(Apply(s, e))
  {
    hide ChainsOk, MessagesOk, RecordsOk;
    match e
    case StepPeer(c, n) => StepPeerChains(s, c, n);
    case StepListener(c, n) => ListenerChains(s, c, n);
    case StepCreateOffer(_, _, _) => SignalChains(s, e);
    case StepReceiveOffer(_, _, _) => SignalChains(s, e);
    case StepReceiveAnswer(_, _) => CompletionChains(s, e);
    case StepCplt(_, _) => CompletionChains(s, e);
    case _ => IdleKept(s, e);
  }
}
