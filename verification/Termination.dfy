/** Every run of the whole system comes to an end once nobody advertises or tears down any more. */
module Termination {
  import opened Vocabulary
  import opened Channels
  import opened Broadcast
  import opened Server
  import opened System
  import opened Registry
  import opened Discovery
  import opened Chains
  import opened Causality
  import opened Weights
  import Convergence
  import Client
  import ConnectionMap

  function Minus(a: nat, b: nat): nat {
    if a >= b then a - b else 0
  }

  /** What a pending task can still cause; less once its callback has taken its connection. */
  function TaskWeight(t: Client.Task, taken: bool): nat {
    match t
    case PeerListener => 0
    case Listener(_) => 0
    case CreateOffer(_) => 12
    case ReceiveOffer(_, _, _) => 9
    case ReceiveAnswer(_, _, _) => if taken then 3 else 4
    case LocalCplt(_) => if taken then 1 else 2
    case RemoteCplt(_) => if taken then 1 else 2
  }

  function TaskWeights(tasks: map<nat, Client.Task>, held: set<nat>): map<nat, nat> {
    map n | n in tasks && !Client.IsListener(tasks[n]) :: TaskWeight(tasks[n], n in held)
  }

  function Pending(node: Node): nat {
    Total(TaskWeights(node.core.tasks, node.held.Keys), node.core.next)
  }

  /** What a client's phase can still cause; before its first list it may find all of `gen` peers. */
  function PhaseWeight(phase: Phase, gen: nat): nat {
    match phase
    case Advertised => 12 * gen + 25
    case PeerOpen => 22
    case OfferOpen => 9
    case Running => 1
    case Stopped => 0
  }

  function NodeWeight(node: Node, gen: nat): nat {
    PhaseWeight(node.phase, gen) + Pending(node) + if node.sync.Some? then 1 else 0
  }

  /** What a peer stream can still cause: events to read, broadcasts to take, offers to create. */
  function StreamWeight(st: PeerStream, first: bool, sent: nat): nat {
    2 * |st.wire| + (if st.ended then 0 else 3 * Minus(sent, st.pos)) + if first then 12 * |st.order| else 0
  }

  /** What a channel can still cause, `each` for every message that has not been read. */
  function ChanWeight(ch: Chan, each: nat): nat {
    Minus(|ch.log|, ch.fwd) + each * Minus(|ch.log|, ch.read) + if ch.alive then 1 else 0
  }

  function SideWeight(h: Hub, key: Key): nat {
    if key in h.chans then ChanWeight(h.chans[key], if key.side == OfferSide then 10 else 5) else 0
  }

  function StreamPart(s: State, i: Id): nat {
    if i in s.streams && i in s.nodes then StreamWeight(s.streams[i], s.nodes[i].core.first, |s.hub.log|) else 0
  }

  function NodePart(s: State, i: Id): nat {
    if i in s.nodes then NodeWeight(s.nodes[i], s.hub.gen) else 0
  }

  /** Everything that belongs to one peer. */
  function PeerWeight(s: State, i: Id): nat {
    NodePart(s, i) + StreamPart(s, i) + SideWeight(s.hub, Key(OfferSide, i)) + SideWeight(s.hub, Key(AnswerSide, i))
  }

  function Sum(s: State, n: nat): nat {
    if n == 0 then 0 else Sum(s, n - 1) + PeerWeight(s, n - 1)
  }

  /** Every registered peer outweighs the broadcast of its removal. */
  function PeersWeight(n: nat, gen: nat): nat {
    if n == 0 then 0 else PeersWeight(n - 1, gen) + 3 * gen + 1
  }

  /** The rank of a state. */
  function Rank(s: State): nat {
    Sum(s, s.hub.gen) + PeersWeight(|s.hub.peers.Keys|, s.hub.gen)
  }

  /** At most one more broadcast for everybody, and changes of weight at `a` and at `b`. */
  ghost predicate Shifts(s: State, s': State, grow: bool, a: Id, da: int, b: Id, db: int) {
    && s'.hub.gen == s.hub.gen && a < s.hub.gen && b < s.hub.gen
    && forall i: Id :: i < s.hub.gen ==>
         PeerWeight(s', i) <= PeerWeight(s, i) + (if grow then 3 else 0) + (if i == a then da else 0) + (if i == b then db else 0)
  }

  lemma {:induction false} SumShifts(s: State, s': State, n: nat, grow: bool, a: Id, da: int, b: Id, db: int)
    requires Shifts(s, s', grow, a, da, b, db) && n <= s.hub.gen
    ensures Sum(s', n) <= Sum(s, n) + (if grow then 3 * n else 0) + (if a < n then da else 0) + (if b < n then db else 0)
  {
    if n > 0 {
      SumShifts(s, s', n - 1, grow, a, da, b, db);
    }
  }

  lemma RankShifts(s: State, s': State, a: Id, da: int, b: Id, db: int)
    requires Shifts(s, s', false, a, da, b, db) && da + db < 0 && s'.hub.peers.Keys == s.hub.peers.Keys
    ensures Rank(s') < Rank(s)
  {
    SumShifts(s, s', s.hub.gen, false, a, da, b, db);
  }

  lemma RankEvicts(s: State, s': State, a: Id, da: int, b: Id, db: int, id: Id)
    requires Shifts(s, s', true, a, da, b, db) && da + db <= 0
    requires id in s.hub.peers && s'.hub.peers.Keys == s.hub.peers.Keys - {id}
    ensures Rank(s') < Rank(s)
  {
    SumShifts(s, s', s.hub.gen, true, a, da, b, db);
    hide Sum, Shifts;
    assert |s'.hub.peers.Keys| == |s.hub.peers.Keys| - 1;
  }

  /** Nothing of this peer's changed, except that there may be one more broadcast to take. */
  ghost predicate Untouched(s: State, s': State, i: Id) {
    && (i in s'.nodes <==> i in s.nodes) && (i in s.nodes ==> s'.nodes[i] == s.nodes[i])
    && SameInputs(s, s', i)
  }

  ghost predicate SameInputs(s: State, s': State, i: Id) {
    && (i in s'.streams <==> i in s.streams) && (i in s.streams ==> s'.streams[i] == s.streams[i])
    && SameSide(s, s', Key(OfferSide, i)) && SameSide(s, s', Key(AnswerSide, i))
  }

  ghost predicate SameSide(s: State, s': State, key: Key) {
    (key in s'.hub.chans <==> key in s.hub.chans) && (key in s.hub.chans ==> s'.hub.chans[key] == s.hub.chans[key])
  }

  predicate LogGrows(s: State, s': State, grow: bool) {
    s'.hub.gen == s.hub.gen && |s'.hub.log| == |s.hub.log| + if grow then 1 else 0
  }

  lemma UntouchedWeight(s: State, s': State, i: Id, grow: bool)
    requires Untouched(s, s', i) && LogGrows(s, s', grow)
    ensures PeerWeight(s', i) <= PeerWeight(s, i) + if grow then 3 else 0
  {
  }

  /** Only what belongs to `a` and `b` changed. */
  lemma TwoShift(s: State, s': State, grow: bool, a: Id, da: int, b: Id, db: int)
    requires LogGrows(s, s', grow) && a < s.hub.gen && b < s.hub.gen
    requires forall i :: i != a && i != b ==> Untouched(s, s', i)
    requires a != b && PeerWeight(s', a) <= PeerWeight(s, a) + (if grow then 3 else 0) + da
    requires PeerWeight(s', b) <= PeerWeight(s, b) + (if grow then 3 else 0) + db
    ensures Shifts(s, s', grow, a, da, b, db)
  {
    forall i: Id | i < s.hub.gen
      ensures PeerWeight(s', i) <= PeerWeight(s, i) + (if grow then 3 else 0) + (if i == a then da else 0) + (if i == b then db else 0)
    {
      if i != a && i != b {
        UntouchedWeight(s, s', i, grow);
      }
    }
  }

  lemma OneShift(s: State, s': State, grow: bool, a: Id, da: int)
    requires LogGrows(s, s', grow) && a < s.hub.gen
    requires forall i :: i != a ==> Untouched(s, s', i)
    requires PeerWeight(s', a) <= PeerWeight(s, a) + (if grow then 3 else 0) + da
    ensures Shifts(s, s', grow, a, da, a, 0)
  {
    forall i: Id | i < s.hub.gen
      ensures PeerWeight(s', i) <= PeerWeight(s, i) + (if grow then 3 else 0) + (if i == a then da else 0)
    {
      if i != a {
        UntouchedWeight(s, s', i, grow);
      }
    }
  }

  /** An event that changes only what belongs to one peer, for the lighter. */
  lemma LighterPeer(s: State, s': State, a: Id)
    requires LogGrows(s, s', false) && a < s.hub.gen && s'.hub.peers.Keys == s.hub.peers.Keys
    requires forall i :: i != a ==> Untouched(s, s', i)
    requires PeerWeight(s', a) < PeerWeight(s, a)
    ensures Rank(s') < Rank(s)
  {
    OneShift(s, s', false, a, -1);
    RankShifts(s, s', a, -1, a, 0);
  }

  /** Only the client itself changed. */
  lemma LighterClient(s: State, s': State, a: Id)
    requires LogGrows(s, s', false) && a < s.hub.gen && s'.hub.peers.Keys == s.hub.peers.Keys
    requires a in s.nodes && a in s'.nodes && s'.nodes == s.nodes[a := s'.nodes[a]] && s'.streams == s.streams && s'.hub.chans == s.hub.chans
    requires s'.nodes[a].core.first == s.nodes[a].core.first && NodeWeight(s'.nodes[a], s.hub.gen) < NodeWeight(s.nodes[a], s.hub.gen)
    ensures Rank(s') < Rank(s)
  {
    assert StreamPart(s', a) == StreamPart(s, a);
    LighterPeer(s, s', a);
  }

  /** The task weights after task `n` left. */
  lemma PendingLoses(node: Node, node': Node, n: nat)
    requires TasksBelow(node) && n in node.core.tasks && node'.core.next == node.core.next
    requires node'.core.tasks == node.core.tasks - {n} && node'.held.Keys in {node.held.Keys, node.held.Keys - {n}}
    ensures Pending(node') == Pending(node) - TaskWeight(node.core.tasks[n], n in node.held)
  {
    var w, w' := TaskWeights(node.core.tasks, node.held.Keys), TaskWeights(node'.core.tasks, node'.held.Keys);
    assert w' == w - {n};
    if n in w {
      TotalWithout(w, n, node.core.next);
    } else {
      assert w - {n} == w;
    }
  }

  /** ... and after a task was queued as number `k`, possibly behind a listener. */
  lemma PendingGains(node: Node, node': Node, k: nat)
    requires TasksBelow(node) && node.core.next <= k && node'.core.next == k + 1 && k in node'.core.tasks
    requires forall m: nat :: m < node.core.next ==>
      (m in node'.core.tasks <==> m in node.core.tasks) && (m in node.core.tasks ==> node'.core.tasks[m] == node.core.tasks[m])
    requires forall m: nat :: m in node'.core.tasks && node.core.next <= m && m != k ==> Client.IsListener(node'.core.tasks[m])
    requires TasksBelow(node') && node'.held.Keys == node.held.Keys
    ensures Pending(node') == Pending(node) + TaskWeight(node'.core.tasks[k], k in node.held)
  {
    var t := node'.core.tasks[k];
    var w, w' := TaskWeights(node.core.tasks, node.held.Keys), TaskWeights(node'.core.tasks, node'.held.Keys);
    TotalBeyond(w, node.core.next, k);
    if Client.IsListener(t) {
      assert w' == w;
      TotalBeyond(w, node.core.next, k + 1);
    } else {
      TotalPlus(w, k, TaskWeight(t, k in node.held));
      assert w' == w[k := TaskWeight(t, k in node.held)];
    }
  }

  /** The connections taken out belong to tasks already numbered. */
  ghost predicate HeldBelow(node: Node) {
    forall n :: n in node.held ==> n < node.core.next
  }

  ghost predicate HeldInv(s: State) {
    forall c :: c in s.nodes ==> HeldBelow(s.nodes[c])
  }

  lemma PendingTakes(node: Node, node': Node, n: nat)
    requires TasksBelow(node) && n in node.core.tasks && Takes(node.core.tasks[n]) && n !in node.held
    requires node'.core == node.core && node'.held.Keys == node.held.Keys + {n}
    ensures Pending(node') == Pending(node) - 1
  {
    var w, w' := TaskWeights(node.core.tasks, node.held.Keys), TaskWeights(node'.core.tasks, node'.held.Keys);
    assert w' == w[n := w[n] - 1];
    assert w' - {n} == w - {n};
    TotalWithout(w, n, node.core.next);
    TotalWithout(w', n, node.core.next);
  }

  lemma SameTasksSamePending(node: Node, node': Node)
    requires node'.core.tasks == node.core.tasks && node'.core.next == node.core.next && node'.held == node.held
    ensures Pending(node') == Pending(node)
  {
  }

  lemma StopLowers(s: State, c: Id)
    requires c < s.hub.gen && Enabled(s, Stop(c))
    ensures Rank(Halt(s, c)) < Rank(s)
  {
    SameTasksSamePending(s.nodes[c], Halt(s, c).nodes[c]);
    LighterClient(s, Halt(s, c), c);
  }

  lemma MapErrorLowers(s: State, c: Id, conns: map<Id, Option<Conn>>)
    requires c < s.hub.gen && Active(s, c)
    ensures Rank(MapError(s, c, conns)) < Rank(s)
  {
    SameTasksSamePending(s.nodes[c], MapError(s, c, conns).nodes[c]);
    LighterClient(s, MapError(s, c, conns), c);
  }

  lemma SyncReplyLowers(s: State, c: Id)
    requires c < s.hub.gen && Enabled(s, SyncReply(c)) && At(s, c)
    ensures Rank(DoSyncReply(s, c)) < Rank(s)
  {
    SyncReplyOk(c, s.nodes[c], s.streams[c], s.hub);
    SameTasksSamePending(s.nodes[c], DoSyncReply(s, c).nodes[c]);
    LighterClient(s, DoSyncReply(s, c), c);
  }

  lemma TakeLightens(s: State, c: Id, n: nat)
    requires c < s.hub.gen && Enabled(s, Take(c, n)) && TasksBelow(s.nodes[c])
    ensures Rank(DoTake(s, c, n)) < Rank(s)
  {
    var (conns, x) := ConnectionMap.Take(s.nodes[c].conns, TaskOf(s, c, n).remote);
    if x.None? {
      MapErrorLowers(s, c, conns);
    } else {
      PendingTakes(s.nodes[c], DoTake(s, c, n).nodes[c], n);
      LighterClient(s, DoTake(s, c, n), c);
    }
  }

  lemma TakeLowers(s: State, c: Id, n: nat)
    requires DiscoveryInv(s) && TasksOk(s) && Enabled(s, Take(c, n))
    ensures Rank(DoTake(s, c, n)) < Rank(s)
  {
    assert TasksBelow(s.nodes[c]);
    TakeLightens(s, c, n);
  }

  /** Only one channel changed, for the lighter. */
  lemma LighterChannel(s: State, key: Key, ch: Chan)
    requires key in s.hub.chans && key.id < s.hub.gen
    requires SideWeight(SetChan(s, key, ch).hub, key) < SideWeight(s.hub, key)
    ensures Rank(SetChan(s, key, ch)) < Rank(s)
  {
    var other := Key(if key.side == OfferSide then AnswerSide else OfferSide, key.id);
    assert SideWeight(SetChan(s, key, ch).hub, other) == SideWeight(s.hub, other);
    assert PeerWeight(SetChan(s, key, ch), key.id) < PeerWeight(s, key.id) by {
      assert key == Key(OfferSide, key.id) || key == Key(AnswerSide, key.id);
    }
    LighterPeer(s, SetChan(s, key, ch), key.id);
  }

  lemma ForwardLowers(s: State, key: Key)
    requires Enabled(s, Forward(key)) && key.id < s.hub.gen
    ensures Rank(DoForward(s, key)) < Rank(s)
  {
    LighterChannel(s, key, s.hub.chans[key].(fwd := s.hub.chans[key].fwd + 1));
  }

  lemma DropLowers(s: State, key: Key)
    requires Enabled(s, Drop(key)) && key.id < s.hub.gen
    ensures Rank(DoDrop(s, key)) < Rank(s)
  {
    LighterChannel(s, key, s.hub.chans[key].(alive := false));
  }

  lemma PumpLightens(st: PeerStream, first: bool, log: seq<Change>)
    requires !st.ended && st.pos < |log|
    ensures StreamWeight(Pump(st, log), first, |log|) < StreamWeight(st, first, |log|)
  {
  }

  lemma PumpLowers(s: State, c: Id)
    requires c < s.hub.gen && c in s.nodes && Enabled(s, PumpPeer(c))
    ensures Rank(DoPumpPeer(s, c)) < Rank(s)
  {
    PumpLightens(s.streams[c], s.nodes[c].core.first, s.hub.log);
    LighterPeer(s, DoPumpPeer(s, c), c);
  }

  /** An initial list is no longer than the number of IDs. */
  lemma ListBounded(h: Hub, c: Id, order: seq<Id>)
    requires HubInv(h) && Lists(order, Discover(h, c))
    ensures |order| <= h.gen
  {
    assert Elements(order) <= Below(h.gen);
    SubsetSize(Elements(order), Below(h.gen));
    ListSize(order);
  }

  lemma OpenPeerLowers(s: State, c: Id, order: seq<Id>)
    requires c < s.hub.gen && Enabled(s, OpenPeer(c, order)) && s.nodes[c] == NewNode(c) && c !in s.streams
    requires |order| <= s.hub.gen
    ensures Rank(DoOpenPeer(s, c, order)) < Rank(s)
  {
    SameTasksSamePending(s.nodes[c], DoOpenPeer(s, c, order).nodes[c]);
    LighterPeer(s, DoOpenPeer(s, c, order), c);
  }

  lemma NothingPending(node: Node)
    requires forall n :: n in node.core.tasks ==> Client.IsListener(node.core.tasks[n])
    ensures Pending(node) == 0
  {
    assert TaskWeights(node.core.tasks, node.held.Keys) == map[];
    TotalBeyond(map[], 0, node.core.next);
  }

  /** A client took its next step of starting, or stopped, opening no channel or the channel `key`. */
  lemma OpenLightens(s: State, s': State, c: Id, key: Key)
    requires LogGrows(s, s', false) && c in s.nodes && c in s'.nodes && s'.streams == s.streams
    requires s'.nodes[c].core.first == s.nodes[c].core.first && s'.nodes[c].sync == s.nodes[c].sync
    requires Pending(s.nodes[c]) == Pending(s'.nodes[c]) == 0 && key.id == c
    requires || (s'.hub.chans == s.hub.chans && s'.nodes[c].phase == Stopped)
             || (key !in s.hub.chans && s'.hub.chans == s.hub.chans[key := NewChan()]
                 && s'.nodes[c].phase == if key.side == OfferSide then OfferOpen else Running)
    requires s.nodes[c].phase == if key.side == OfferSide then PeerOpen else OfferOpen
    ensures PeerWeight(s', c) < PeerWeight(s, c)
  {
  }

  lemma StartedEmpty(s: State, c: Id, side: Side)
    requires HubInv(s.hub) && Enabled(s, Open(c, side)) && NodeOk(c, s.nodes[c])
    ensures Pending(s.nodes[c]) == Pending(DoOpen(s, c, side).nodes[c]) == 0
    ensures DoOpen(s, c, side).nodes[c].core.first && s.nodes[c].core.first
    ensures OpenListener(s.hub, side, c).1.Ok? ==> Key(side, c) !in s.hub.chans
  {
    NothingPending(s.nodes[c]);
    NothingPending(DoOpen(s, c, side).nodes[c]);
  }

  lemma OpenLowers(s: State, c: Id, side: Side)
    requires HubInv(s.hub) && c < s.hub.gen && Enabled(s, Open(c, side)) && NodeOk(c, s.nodes[c])
    ensures Rank(DoOpen(s, c, side)) < Rank(s)
  {
    hide HubInv, Pending, PeerWeight, Client.NewCore;
    var s' := DoOpen(s, c, side);
    StartedEmpty(s, c, side);
    OpenLightens(s, s', c, Key(side, c));
    LighterPeer(s, s', c);
  }

  /** Task `n` left, and nothing was queued. */
  lemma WorkedLoses(s: State, s': State, c: Id, n: nat, p: Pair)
    requires Worked(s, s', c, n, p) && s'.nodes[c].core.next == s.nodes[c].core.next
    requires s'.nodes[c].held.Keys in {s.nodes[c].held.Keys, s.nodes[c].held.Keys - {n}}
    ensures Pending(s'.nodes[c]) == Pending(s.nodes[c]) - TaskWeight(s.nodes[c].core.tasks[n], n in s.nodes[c].held)
  {
    assert s'.nodes[c].core.tasks == s.nodes[c].core.tasks - {n};
    PendingLoses(s.nodes[c], s'.nodes[c], n);
  }

  /** Task `n` left, and task `k` was queued, possibly behind a listener. */
  lemma WorkedGains(s: State, s': State, c: Id, n: nat, p: Pair, k: nat, t: Client.Task)
    requires Worked(s, s', c, n, p) && HeldBelow(s.nodes[c]) && HasTask(s', c, k, t)
    requires s.nodes[c].core.next <= k && s'.nodes[c].core.next == k + 1
    requires forall m :: m in s'.nodes[c].core.tasks && s.nodes[c].core.next <= m < k ==> Client.IsListener(s'.nodes[c].core.tasks[m])
    requires s'.nodes[c].held.Keys in {s.nodes[c].held.Keys, s.nodes[c].held.Keys - {n}}
    ensures Pending(s'.nodes[c]) ==
      Pending(s.nodes[c]) - TaskWeight(s.nodes[c].core.tasks[n], n in s.nodes[c].held) + TaskWeight(t, false)
  {
    var between := s.nodes[c].(core := Client.Done(s.nodes[c].core, n), held := s'.nodes[c].held);
    PendingLoses(s.nodes[c], between, n);
    PendingGains(between, s'.nodes[c], k);
  }

  lemma CompletesLowers(s: State, s': State, c: Id, n: nat, p: Pair)
    requires c < s.hub.gen && Completes(s, s', c, n, p) && HeldBelow(s.nodes[c])
    ensures Rank(s') < Rank(s)
  {
    if s.nodes[c].core.tasks[n].ReceiveAnswer? {
      WorkedGains(s, s', c, n, p, s.nodes[c].core.next, Client.LocalCplt(s.nodes[c].core.tasks[n].remote));
    } else {
      WorkedLoses(s, s', c, n, p);
    }
    LighterClient(s, s', c);
  }

  /** Reading a message lightens its channel by at least the weight of one. */
  lemma ReadLightens(ch: Chan, i: nat, each: nat)
    requires ch.read <= i < |ch.log|
    ensures ChanWeight(ch.(read := i + 1), each) <= ChanWeight(ch, each) - each
  {
    Product(each, |ch.log| - (i + 1), |ch.log| - ch.read - 1);
  }

  lemma Product(each: nat, a: int, b: int)
    requires a <= b
    ensures each * a <= each * (b + 1) - each
  {
    assert each * (b + 1) == each * b + each;
    Monotone(each, a, b);
  }

  lemma Monotone(each: nat, a: int, b: int)
    requires a <= b
    ensures each * a <= each * b
  {
  }

  /** A client read one message and queued what weighs less than the message did. */
  lemma ReadLowers(s: State, s': State, c: Id, side: Side, i: nat)
    requires c < s.hub.gen && c in s.nodes && c in s'.nodes && s'.nodes == s.nodes[c := s'.nodes[c]] && s'.streams == s.streams
    requires Key(side, c) in s.hub.chans && s.hub.chans[Key(side, c)].read <= i < |s.hub.chans[Key(side, c)].log|
    requires s'.hub == s.hub.(chans := s.hub.chans[Key(side, c) := s.hub.chans[Key(side, c)].(read := i + 1)])
    requires s'.nodes[c].core.first == s.nodes[c].core.first
    requires NodeWeight(s'.nodes[c], s.hub.gen) < NodeWeight(s.nodes[c], s.hub.gen) + if side == OfferSide then 10 else 5
    ensures Rank(s') < Rank(s)
  {
    ReadLightens(s.hub.chans[Key(side, c)], i, if side == OfferSide then 10 else 5);
    hide NodeWeight, ChanWeight;
    assert StreamPart(s', c) == StreamPart(s, c);
    LighterPeer(s, s', c);
  }

  lemma DeliversLowers(s: State, s': State, c: Id, n: nat, side: Side, i: nat, x: Signal)
    requires c < s.hub.gen && Delivers(s, s', c, n, side, i, x) && HeldBelow(s.nodes[c])
    ensures Rank(s') < Rank(s)
  {
    var k := s.nodes[c].core.next + 1;
    WorkedGains(s, s', c, n, SignalPair(Key(side, c), x), k, s'.nodes[c].core.tasks[k]);
    hide Pending, HeldBelow, CoreWorked;
    ReadLowers(s, s', c, side, i);
  }

  lemma OfferWeights(node: Node, node': Node, n: nat, order: seq<Id>)
    requires OffersQueued(node.core, node'.core, n, order) && TasksBelow(node) && node'.held == node.held
    requires n in node.core.tasks && node.core.tasks[n].PeerListener?
    ensures var w, w' := TaskWeights(node.core.tasks, node.held.Keys), TaskWeights(node'.core.tasks, node'.held.Keys);
      && (forall k: nat :: k < node.core.next ==> (k in w <==> k in w') && (k in w ==> w[k] == w'[k]))
      && node.core.next !in w' && node'.core.next == node.core.next + 1 + |order|
      && (forall k: nat :: node.core.next + 1 <= k < node'.core.next ==> k in w' && w'[k] == 12)
  {
  }

  /** Queueing an offer per listed peer weighs what the unread list did. */
  lemma StartsPending(s: State, s': State, c: Id, n: nat, order: seq<Id>)
    requires Starts(s, s', c, n, order)
    ensures Pending(s'.nodes[c]) == Pending(s.nodes[c]) + 12 * |order|
  {
    var node, node' := s.nodes[c], s'.nodes[c];
    var w, w' := TaskWeights(node.core.tasks, node.held.Keys), TaskWeights(node'.core.tasks, node'.held.Keys);
    OfferWeights(node, node', n, order);
    hide Starts, TaskWeights, OffersQueued;
    TotalAgrees(w, w', node.core.next);
    TotalRun(w', node.core.next + 1, node'.core.next, 12);
  }

  lemma FirstMessageLightens(st: PeerStream, sent: nat)
    requires st.wire != []
    ensures StreamWeight(st.(wire := st.wire[1..]), false, sent) + 12 * |st.order| < StreamWeight(st, true, sent)
  {
  }

  lemma StartsLowers(s: State, s': State, c: Id, n: nat, order: seq<Id>)
    requires c < s.hub.gen && Starts(s, s', c, n, order)
    requires s.streams[c].wire != [] && s'.streams[c] == s.streams[c].(wire := s.streams[c].wire[1..])
    ensures Rank(s') < Rank(s)
  {
    StartsPending(s, s', c, n, order);
    FirstMessageLightens(s.streams[c], |s.hub.log|);
    LighterPeer(s, s', c);
  }

  lemma SameWorkSamePending(node: Node, node': Node)
    requires TasksBelow(node) && SameNode(node, node') && node'.held == node.held && node.core.next <= node'.core.next
    ensures Pending(node') == Pending(node)
  {
    var w, w' := TaskWeights(node.core.tasks, node.held.Keys), TaskWeights(node'.core.tasks, node'.held.Keys);
    forall m ensures m in w <==> m in w' {
      assert m in w <==> m in Work(node.core);
      assert m in w' <==> m in Work(node'.core);
    }
    forall m | m in w ensures w[m] == w'[m] {
      assert m in Work(node.core) && m in Work(node'.core) && Work(node.core)[m] == Work(node'.core)[m];
    }
    assert w == w';
    TotalBeyond(w, node.core.next, node'.core.next);
  }

  /** Any later message may only start a resynchronisation, or stop the client. */
  lemma LaterMessageShape(node: Node, h: Hub, n: nat, event: PeerEvent)
    requires !node.core.first && node.phase == Running && node.sync.None?
    ensures var node' := OnPeerEvent(node, h, n, event);
      && node'.held == node.held && node.core.next <= node'.core.next && !node'.core.first
      && PhaseWeight(node'.phase, 0) <= 1
  {
  }

  lemma LaterMessageLowers(s: State, c: Id, n: nat)
    requires c < s.hub.gen && Enabled(s, StepPeer(c, n)) && !s.nodes[c].core.first && TasksBelow(s.nodes[c])
    requires SameNode(s.nodes[c], DoStepPeer(s, c, n).nodes[c])
    ensures Rank(DoStepPeer(s, c, n)) < Rank(s)
  {
    var s' := DoStepPeer(s, c, n);
    PeerEventShape(s.nodes[c], s.hub, n, s.streams[c].wire[0]);
    LaterMessageShape(s.nodes[c], s.hub, n, s.streams[c].wire[0]);
    SameWorkSamePending(s.nodes[c], s'.nodes[c]);
    LighterPeer(s, s', c);
  }

  /** An accepted signal weighs one unforwarded and one unread message more. */
  lemma PushAdds(ch: Chan, x: Signal, each: nat)
    requires ch.read <= |ch.log| && ch.fwd <= |ch.log|
    ensures ChanWeight(ch.(log := ch.log + [Some(x)]), each) == ChanWeight(ch, each) + each + 1
  {
    assert each * (|ch.log| + 1 - ch.read) == each * (|ch.log| - ch.read) + each;
  }

  /** The weight of a target once it has accepted a signal. */
  lemma TargetGains(s: State, s': State, side: Side, r: Id, x: Signal)
    requires HubInv(s.hub) && s'.hub == Send(s.hub, side, r, x).0 && Judge(s.hub, side, r) == Accept
    requires s'.streams == s.streams && (r in s.nodes <==> r in s'.nodes) && (r in s.nodes ==> s'.nodes[r] == s.nodes[r])
    ensures PeerWeight(s', r) == PeerWeight(s, r) + if side == OfferSide then 11 else 6
  {
    PushAdds(s.hub.chans[Key(side, r)], x, if side == OfferSide then 10 else 5);
  }

  /** What signalling does to the hub, by verdict. */
  lemma SendHub(h: Hub, side: Side, r: Id, x: Signal)
    ensures match Judge(h, side, r)
      case Accept =>
        && Send(h, side, r, x).0.chans.Keys == h.chans.Keys && Send(h, side, r, x).0.log == h.log
        && (forall key :: key in h.chans && key != Key(side, r) ==> Send(h, side, r, x).0.chans[key] == h.chans[key])
        && Send(h, side, r, x).0.peers == h.peers && Send(h, side, r, x).0.gen == h.gen
      case Gone =>
        && Send(h, side, r, x).0.chans == h.chans && |Send(h, side, r, x).0.log| == |h.log| + 1
        && r in h.peers && Send(h, side, r, x).0.peers.Keys == h.peers.Keys - {r} && Send(h, side, r, x).0.gen == h.gen
      case _ => Send(h, side, r, x).0 == h
  {
  }

  /** A client signalled: `lost` is what its pending tasks have become lighter by. */
  ghost predicate Signals(s: State, s': State, c: Id, side: Side, r: Id, x: Signal, lost: nat) {
    && c in s.nodes && c in s'.nodes && s'.nodes == s.nodes[c := s'.nodes[c]] && s'.streams == s.streams
    && s'.hub == Send(s.hub, side, r, x).0
    && s'.nodes[c].core.first == s.nodes[c].core.first
    && NodeWeight(s'.nodes[c], s.hub.gen) + lost <= NodeWeight(s.nodes[c], s.hub.gen)
  }

  lemma SignalLowers(s: State, s': State, c: Id, side: Side, r: Id, x: Signal, lost: nat)
    requires HubInv(s.hub) && c < s.hub.gen && c != r && r < s.hub.gen && Signals(s, s', c, side, r, x, lost)
    requires lost > if Judge(s.hub, side, r) != Accept then 0 else if side == OfferSide then 11 else 6
    ensures Rank(s') < Rank(s)
  {
    SendHub(s.hub, side, r, x);
    match Judge(s.hub, side, r)
    case Accept => AcceptLowers(s, s', c, side, r, x, lost);
    case Gone => GoneLowers(s, s', c, side, r, x, lost);
    case _ => LighterClient(s, s', c);
  }

  lemma AcceptLowers(s: State, s': State, c: Id, side: Side, r: Id, x: Signal, lost: nat)
    requires HubInv(s.hub) && c < s.hub.gen && c != r && r < s.hub.gen && Signals(s, s', c, side, r, x, lost)
    requires Judge(s.hub, side, r) == Accept && lost > if side == OfferSide then 11 else 6
    ensures Rank(s') < Rank(s)
  {
    SendHub(s.hub, side, r, x);
    TargetGains(s, s', side, r, x);
    assert StreamPart(s', c) == StreamPart(s, c);
    var gain: int, loss: int := if side == OfferSide then 11 else 6, 0 - lost;
    TwoShift(s, s', false, c, loss, r, gain);
    RankShifts(s, s', c, loss, r, gain);
  }

  lemma GoneLowers(s: State, s': State, c: Id, side: Side, r: Id, x: Signal, lost: nat)
    requires c < s.hub.gen && Signals(s, s', c, side, r, x, lost) && Judge(s.hub, side, r) == Gone
    ensures Rank(s') < Rank(s)
  {
    SendHub(s.hub, side, r, x);
    assert StreamPart(s', c) <= StreamPart(s, c) + 3;
    OneShift(s, s', true, c, 0);
    RankEvicts(s, s', c, 0, c, 0, r);
  }

  lemma OffersLowers(s: State, s': State, c: Id, n: nat, r: Id, offer: Payload)
    requires HubInv(s.hub) && c < s.hub.gen && c != r && r < s.hub.gen && Offers(s, s', c, n, r, offer) && s.nodes[c].phase == Running
    ensures Rank(s') < Rank(s)
  {
    WorkedLoses(s, s', c, n, Pair(c, r));
    SignalLowers(s, s', c, OfferSide, r, Signal(c, offer), 12);
  }

  lemma AnswersLowers(s: State, s': State, c: Id, n: nat, r: Id, j: nat, answer: Payload)
    requires HubInv(s.hub) && c < s.hub.gen && c != r && r < s.hub.gen && Answers(s, s', c, n, r, j, answer)
    requires s.nodes[c].phase == Running && HeldBelow(s.nodes[c])
    ensures Rank(s') < Rank(s)
  {
    if Send(s.hub, AnswerSide, r, Signal(c, answer)).1.Ok? {
      WorkedGains(s, s', c, n, Pair(r, c), s.nodes[c].core.next, Client.RemoteCplt(r));
    } else {
      WorkedLoses(s, s', c, n, Pair(r, c));
    }
    SignalLowers(s, s', c, AnswerSide, r, Signal(c, answer), 7);
  }

  lemma CreateOfferLowers(s: State, c: Id, n: nat, offer: Payload)
    requires DiscoveryInv(s) && ChainInv(s) && Enabled(s, StepCreateOffer(c, n, offer))
    ensures Rank(DoStepCreateOffer(s, c, n, offer)) < Rank(s)
  {
    var r := TaskOf(s, c, n).remote;
    CreateOfferWorks(s, c, n, offer);
    if r in s.nodes[c].conns {
      MapErrorLowers(s, c, ConnectionMap.Insert(s.nodes[c].conns, r, LocalConn(r)).0);
    } else {
      assert TaskOk(s, c, n, TaskOf(s, c, n)) && ChainOk(s, Pair(c, r));
      OffersLowers(s, DoStepCreateOffer(s, c, n, offer), c, n, r, offer);
    }
  }

  lemma ReceiveOfferLowers(s: State, c: Id, n: nat, answer: Payload)
    requires DiscoveryInv(s) && ChainInv(s) && HeldInv(s) && Enabled(s, StepReceiveOffer(c, n, answer))
    ensures Rank(DoStepReceiveOffer(s, c, n, answer)) < Rank(s)
  {
    var r := TaskOf(s, c, n).remote;
    ReceiveOfferWorks(s, c, n, answer);
    if r in s.nodes[c].conns {
      MapErrorLowers(s, c, ConnectionMap.Insert(s.nodes[c].conns, r, RemoteConn(r)).0);
    } else {
      assert TaskOk(s, c, n, TaskOf(s, c, n)) && ChainOk(s, Pair(r, c));
      AnswersLowers(s, DoStepReceiveOffer(s, c, n, answer), c, n, r, TaskOf(s, c, n).at, answer);
    }
  }

  lemma ReceiveAnswerLowers(s: State, c: Id, n: nat)
    requires DiscoveryInv(s) && TasksOk(s) && HeldInv(s) && Enabled(s, StepReceiveAnswer(c, n))
    ensures Rank(DoStepReceiveAnswer(s, c, n)) < Rank(s)
  {
    var r := TaskOf(s, c, n).remote;
    ReceiveAnswerCompletes(s, c, n);
    if ConnectionMap.Place(s.nodes[c].conns, r, s.nodes[c].held[n]).1 {
      CompletesLowers(s, DoStepReceiveAnswer(s, c, n), c, n, Pair(c, r));
    } else {
      MapErrorLowers(s, c, ConnectionMap.Place(s.nodes[c].conns, r, s.nodes[c].held[n]).0);
    }
  }

  lemma CpltLowers(s: State, c: Id, n: nat)
    requires DiscoveryInv(s) && TasksOk(s) && HeldInv(s) && Enabled(s, StepCplt(c, n))
    ensures Rank(DoStepCplt(s, c, n)) < Rank(s)
  {
    CpltCompletes(s, c, n);
    CompletesLowers(s, DoStepCplt(s, c, n), c, n, TaskPair(c, TaskOf(s, c, n)));
  }

  lemma ListenerLowers(s: State, c: Id, n: nat)
    requires DiscoveryInv(s) && TasksOk(s) && HeldInv(s) && Enabled(s, StepListener(c, n))
    ensures Rank(DoStepListener(s, c, n)) < Rank(s)
  {
    assert TasksBelow(s.nodes[c]);
    var side, i, x := ListenerDelivers(s, c, n);
    DeliversLowers(s, DoStepListener(s, c, n), c, n, side, i, x);
  }

  lemma StepPeerLowers(s: State, c: Id, n: nat)
    requires DiscoveryInv(s) && ChainInv(s) && Enabled(s, StepPeer(c, n))
    ensures Rank(DoStepPeer(s, c, n)) < Rank(s)
  {
    if s.nodes[c].core.first {
      FirstMessageStarts(s, c, n);
      StartsLowers(s, DoStepPeer(s, c, n), c, n, s.streams[c].order);
    } else {
      LaterMessageSame(s, c, n);
      assert TasksBelow(s.nodes[c]);
      LaterMessageLowers(s, c, n);
    }
  }

  lemma ChainEventsLower(s: State, e: Event)
    requires DiscoveryInv(s) && ChainInv(s) && HeldInv(s) && Enabled(s, e) && ChainEvent(e)
    ensures Rank(Apply(s, e)) < Rank(s)
  {
    hide ChainsOk, TasksOk, MessagesOk, RecordsOk, DiscoveryInv, HeldInv, Rank;
    match e
    case StepListener(c, n) => ListenerLowers(s, c, n);
    case StepCreateOffer(c, n, offer) => CreateOfferLowers(s, c, n, offer);
    case StepReceiveOffer(c, n, answer) => ReceiveOfferLowers(s, c, n, answer);
    case Take(c, n) => TakeLowers(s, c, n);
    case StepReceiveAnswer(c, n) => ReceiveAnswerLowers(s, c, n);
    case StepCplt(c, n) => CpltLowers(s, c, n);
  }

  lemma OtherEventsLower(s: State, e: Event)
    requires DiscoveryInv(s) && Enabled(s, e) && !ChainEvent(e) && !e.StepPeer? && !e.Advertise? && !e.Teardown?
    ensures Rank(Apply(s, e)) < Rank(s)
  {
    match e
    case OpenPeer(c, order) =>
      assert At(s, c);
      ListBounded(s.hub, c, order);
      OpenPeerLowers(s, c, order);
    case Open(c, side) =>
      assert At(s, c);
      OpenLowers(s, c, side);
    case PumpPeer(c) => PumpLowers(s, c);
    case Forward(key) => ForwardLowers(s, key);
    case SyncReply(c) =>
      assert At(s, c);
      SyncReplyLowers(s, c);
    case Stop(c) => StopLowers(s, c);
    case Drop(key) => DropLowers(s, key);
  }

  /** Every event but a new advertisement and an explicit teardown lowers the rank. */
  lemma EventLowersRank(s: State, e: Event)
    requires DiscoveryInv(s) && ChainInv(s) && HeldInv(s) && Enabled(s, e) && !e.Advertise? && !e.Teardown?
    ensures Rank(Apply(s, e)) < Rank(s)
  {
    if ChainEvent(e) {
      ChainEventsLower(s, e);
    } else if e.StepPeer? {
      StepPeerLowers(s, e.c, e.n);
    } else {
      OtherEventsLower(s, e);
    }
  }

  /** What an event may do to the connections that are taken out. */
  ghost predicate HeldMoves(node: Node, node': Node) {
    node.core.next <= node'.core.next && forall n :: n in node'.held ==> n in node.held || n < node'.core.next
  }

  lemma OneMoves(s: State, s': State, c: Id)
    requires HeldInv(s) && c in s.nodes && c in s'.nodes && s'.nodes == s.nodes[c := s'.nodes[c]] && HeldMoves(s.nodes[c], s'.nodes[c])
    ensures HeldInv(s')
  {
  }

  lemma ListenerMoves(s: State, c: Id, n: nat)
    requires Enabled(s, StepListener(c, n))
    ensures HeldMoves(s.nodes[c], DoStepListener(s, c, n).nodes[c])
  {
  }

  lemma CreateOfferMoves(s: State, c: Id, n: nat, offer: Payload)
    requires Enabled(s, StepCreateOffer(c, n, offer))
    ensures HeldMoves(s.nodes[c], DoStepCreateOffer(s, c, n, offer).nodes[c])
  {
  }

  lemma ReceiveOfferMoves(s: State, c: Id, n: nat, answer: Payload)
    requires Enabled(s, StepReceiveOffer(c, n, answer))
    ensures HeldMoves(s.nodes[c], DoStepReceiveOffer(s, c, n, answer).nodes[c])
  {
  }

  lemma TakeMoves(s: State, c: Id, n: nat)
    requires Enabled(s, Take(c, n)) && TasksBelow(s.nodes[c])
    ensures HeldMoves(s.nodes[c], DoTake(s, c, n).nodes[c])
  {
  }

  lemma ReceiveAnswerMoves(s: State, c: Id, n: nat)
    requires Enabled(s, StepReceiveAnswer(c, n))
    ensures HeldMoves(s.nodes[c], DoStepReceiveAnswer(s, c, n).nodes[c])
  {
  }

  lemma CpltMoves(s: State, c: Id, n: nat)
    requires Enabled(s, StepCplt(c, n))
    ensures HeldMoves(s.nodes[c], DoStepCplt(s, c, n).nodes[c])
  {
  }

  lemma ChainEventMoves(s: State, e: Event)
    requires Enabled(s, e) && ChainEvent(e) && TasksBelow(s.nodes[ActorOf(e).value]) && HeldInv(s)
    ensures HeldInv(Apply(s, e))
  {
    match e {
      case StepListener(c, n) => ListenerMoves(s, c, n);
      case StepCreateOffer(c, n, offer) => CreateOfferMoves(s, c, n, offer);
      case StepReceiveOffer(c, n, answer) => ReceiveOfferMoves(s, c, n, answer);
      case Take(c, n) => TakeMoves(s, c, n);
      case StepReceiveAnswer(c, n) => ReceiveAnswerMoves(s, c, n);
      case StepCplt(c, n) => CpltMoves(s, c, n);
    }
    ChainEventUndisturbed(s, e);
    OneMoves(s, Apply(s, e), ActorOf(e).value);
  }

  lemma OpenMoves(s: State, c: Id, side: Side)
    requires HeldInv(s) && Enabled(s, Open(c, side)) && NodeOk(c, s.nodes[c])
    ensures HeldInv(DoOpen(s, c, side))
  {
  }

  lemma StepPeerMoves(s: State, c: Id, n: nat)
    requires HeldInv(s) && Enabled(s, StepPeer(c, n))
    ensures HeldInv(DoStepPeer(s, c, n))
  {
    PeerEventMoves(s.nodes[c], s.hub, n, s.streams[c].wire[0]);
    OneMoves(s, DoStepPeer(s, c, n), c);
  }

  lemma PeerEventMoves(node: Node, h: Hub, n: nat, event: PeerEvent)
    ensures HeldMoves(node, OnPeerEvent(node, h, n, event))
  {
  }

  lemma SyncReplyMoves(node: Node, h: Hub, d: set<Id>, changes: seq<Change>, all: seq<Change>)
    ensures HeldMoves(node, Discovering(node, h, d, changes, all))
  {
  }

  lemma HeldKeptElsewhere(s: State, e: Event)
    requires DiscoveryInv(s) && HeldInv(s) && Enabled(s, e) && !ChainEvent(e) && !e.StepPeer? && !e.Open?
    ensures HeldInv(Apply(s, e))
  {
    match e
    case Advertise => NewcomerOk(s);
    case OpenPeer(c, order) => OneMoves(s, DoOpenPeer(s, c, order), c);
    case SyncReply(c) =>
      var sync := s.nodes[c].sync.value;
      SyncReplyMoves(s.nodes[c], s.hub, sync.reply, sync.rest, sync.all);
      OneMoves(s, DoSyncReply(s, c), c);
    case Stop(c) => OneMoves(s, Halt(s, c), c);
    case _ =>
  }

  lemma HeldKept(s: State, e: Event)
    requires DiscoveryInv(s) && ChainInv(s) && HeldInv(s) && Enabled(s, e)
    ensures HeldInv(Apply(s, e))
  {
    if ChainEvent(e) {
      assert TasksBelow(s.nodes[ActorOf(e).value]);
      ChainEventMoves(s, e);
    } else if e.StepPeer? {
      StepPeerMoves(s, e.c, e.n);
    } else if e.Open? {
      assert At(s, e.c);
      OpenMoves(s, e.c, e.side);
    } else {
      HeldKeptElsewhere(s, e);
    }
  }

  lemma {:induction false} HeldAlways(ss: seq<State>, es: seq<Event>, i: nat)
    requires IsRun(ss, es) && i < |ss|
    ensures HeldInv(ss[i])
  {
    hide Enabled, Apply;
    if i > 0 {
      ChainsAlways(ss, es, i - 1);
      HeldAlways(ss, es, i - 1);
      HeldKept(ss[i - 1], es[i - 1]);
    }
  }

  /** Global termination. After the last advertisement and the last explicit teardown, whatever else
      happens, including drops of disconnected peers, at most as many events remain as the rank of
      the state says. */
  lemma {:induction false} RunsTerminate(ss: seq<State>, es: seq<Event>, from: nat)
    requires IsRun(ss, es) && from <= |es|
    requires forall i :: from <= i < |es| ==> !es[i].Advertise? && !es[i].Teardown?
    ensures |es| - from <= Rank(ss[from])
    decreases |es| - from
  {
    if from < |es| {
      ChainsAlways(ss, es, from);
      HeldAlways(ss, es, from);
      EventLowersRank(ss[from], es[from]);
      RunsTerminate(ss, es, from + 1);
    }
  }
}
