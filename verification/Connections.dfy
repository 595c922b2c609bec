/** The example peer's connection map: what it holds for each peer follows the stages of the chains
    with that peer, and so every callback finds what it needs unless two offers cross. */
module Connections {
  import opened Vocabulary
  import opened Channels
  import opened Broadcast
  import opened Server
  import opened System
  import opened Registry
  import opened Discovery
  import opened Chains
  import opened Causality
  import Convergence
  import Client
  import ConnectionMap

  /** No two peers found each other in their initial lists. */
  ghost predicate OneSided(s: State) {
    forall a, b :: a in s.streams && b in s.streams && b in s.streams[a].order ==> a !in s.streams[b].order
  }

  /** What a client's map must hold for a peer `r` while the chain towards `r` is at `chain`. */
  function LocalEntry(chain: Chain, held: map<nat, Conn>, r: Id): Option<Option<Conn>> {
    match chain
    case Creating(_) => None
    case Answered(_, _, loc, _) =>
      (match loc
       case Unread => Some(Some(LocalConn(r)))
       case Applying(n) => Some(if n in held then None else Some(LocalConn(r)))
       case LocalCompleting(n) => Some(if n in held then None else Some(LocalConn(r)))
       case LocalDone => Some(None))
    case _ => Some(Some(LocalConn(r)))
  }

  /** The same for the chain from `r`. */
  function RemoteEntry(chain: Chain, held: map<nat, Conn>, r: Id): Option<Option<Conn>> {
    match chain
    case AnswerRefused(_, _) => Some(Some(RemoteConn(r)))
    case Answered(_, _, _, rem) =>
      (match rem
       case RemoteCompleting(n) => Some(if n in held then None else Some(RemoteConn(r)))
       case RemoteDone => Some(None))
    case _ => None
  }

  /** The offerer's callback has made its offer for the pair. */
  predicate OfferMade(s: State, p: Pair) {
    p in s.chains && !s.chains[p].Creating?
  }

  /** The answerer's callback has made its answer for the pair. */
  predicate AnswerMade(s: State, p: Pair) {
    p in s.chains && (s.chains[p].AnswerRefused? || s.chains[p].Answered?)
  }

  /** What a running client's map must hold for `r`. */
  function Entry(s: State, c: Id, r: Id): Option<Option<Conn>>
    requires c in s.nodes
  {
    if OfferMade(s, Pair(c, r)) then LocalEntry(s.chains[Pair(c, r)], s.nodes[c].held, r)
    else if Pair(r, c) in s.chains then RemoteEntry(s.chains[Pair(r, c)], s.nodes[c].held, r)
    else None
  }

  function Lookup(conns: map<Id, Option<Conn>>, r: Id): Option<Option<Conn>> {
    if r in conns then Some(conns[r]) else None
  }

  /** The connection that a callback may have taken out. */
  function ConnFor(t: Client.Task): Conn
    requires Takes(t)
  {
    if t.RemoteCplt? then RemoteConn(t.remote) else LocalConn(t.remote)
  }

  ghost predicate HeldOk(node: Node) {
    forall n :: n in node.held ==>
      n in node.core.tasks && Takes(node.core.tasks[n]) && node.held[n] == ConnFor(node.core.tasks[n])
  }

  /** The entry for `r` follows the offer that the client made for `r` or the answer that it made to
      `r`, and it never made both. */
  ghost predicate EntryOk(s: State, c: Id, r: Id)
    requires c in s.nodes
  {
    && Lookup(s.nodes[c].conns, r) == Entry(s, c, r)
    && !(OfferMade(s, Pair(c, r)) && AnswerMade(s, Pair(r, c)))
  }

  predicate Goes(s: State, c: Id) {
    c in s.nodes && s.nodes[c].phase != Stopped
  }

  /** The maps of all clients that have not stopped are in order. */
  ghost predicate ConnInv(s: State) {
    && (forall c :: Goes(s, c) ==> HeldOk(s.nodes[c]) && !s.nodes[c].mapErr)
    && (forall c, r :: Goes(s, c) ==> EntryOk(s, c, r))
  }

  /** Two chains in opposite directions would need two initial lists containing each other. */
  lemma NoOppositeChains(s: State, p: Pair)
    requires ChainInv(s) && OneSided(s) && p in s.chains
    ensures Pair(p.answerer, p.offerer) !in s.chains
  {
  }

  /** The map and the taken connections stay, and so do the stages. */
  ghost predicate SameConns(s: State, s': State) {
    && (forall c :: c in s.nodes ==>
          (c in s'.nodes && s'.nodes[c].conns == s.nodes[c].conns && s'.nodes[c].held == s.nodes[c].held
           && s'.nodes[c].mapErr == s.nodes[c].mapErr && (Goes(s', c) ==> Goes(s, c))))
    && (forall c :: c in s'.nodes && c !in s.nodes ==>
          s'.nodes[c].conns == map[] && s'.nodes[c].held == map[] && !s'.nodes[c].mapErr)
  }

  lemma SameEntries(s: State, s': State)
    requires ChainInv(s) && ConnInv(s) && SameChains(s, s') && SameConns(s, s')
    ensures ConnInv(s')
  {
    forall c | Goes(s', c) ensures HeldOk(s'.nodes[c]) && !s'.nodes[c].mapErr {
      if c in s.nodes {
        SameHeld(s.nodes[c], s'.nodes[c]);
      }
    }
    forall c, r | Goes(s', c) ensures EntryOk(s', c, r) {
      if c in s.nodes {
        assert EntryOk(s, c, r);
      } else {
        PairFact(s, Pair(c, r));
        PairFact(s, Pair(r, c));
      }
    }
  }

  lemma SameHeld(node: Node, node': Node)
    requires HeldOk(node) && SameNode(node, node') && node'.held == node.held
    ensures HeldOk(node')
  {
    forall n | n in node'.held
      ensures n in node'.core.tasks && Takes(node'.core.tasks[n]) && node'.held[n] == ConnFor(node'.core.tasks[n])
    {
      assert n in Work(node.core);
      assert n in Work(node'.core);
    }
  }

  lemma ServerSameConns(s: State, e: Event)
    requires Enabled(s, e) && (e.PumpPeer? || e.Forward? || e.Teardown? || e.Drop?)
    ensures Apply(s, e).nodes == s.nodes
  {
  }

  lemma AdvertiseSameConns(s: State)
    requires DiscoveryInv(s) && s.hub.gen < ID_SPACE
    ensures SameConns(s, DoAdvertise(s))
  {
    NewcomerOk(s);
  }

  lemma DiscoverySameConns(s: State, s': State, c: Id)
    requires c in s.nodes && c in s'.nodes && s'.nodes == s.nodes[c := s'.nodes[c]]
    requires s'.nodes[c].conns == s.nodes[c].conns && s'.nodes[c].held == s.nodes[c].held && s'.nodes[c].mapErr == s.nodes[c].mapErr
    requires Goes(s', c) ==> Goes(s, c)
    ensures SameConns(s, s')
  {
  }

  /** A callback has taken its connection out of the map. */
  ghost predicate TookOut(s: State, s': State, c: Id, n: nat, t: Client.Task) {
    && HasTask(s, c, n, t) && Takes(t) && n !in s.nodes[c].held
    && Lookup(s.nodes[c].conns, t.remote) == Some(Some(ConnFor(t)))
    && s' == Put(s, c, s.nodes[c].(conns := s.nodes[c].conns[t.remote := None], held := s.nodes[c].held[n := ConnFor(t)]))
  }

  /** The stage of its chain says that the connection which a callback is about to take is there. */
  lemma EntryOfTask(s: State, c: Id, n: nat, t: Client.Task)
    requires TasksOk(s) && HasTask(s, c, n, t) && Takes(t) && EntryOk(s, c, t.remote)
    ensures Entry(s, c, t.remote) == Some(if n in s.nodes[c].held then None else Some(ConnFor(t)))
  {
    TaskFact(s, c, n, t);
  }

  /** Taking a connection out succeeds, in every run. */
  lemma TakeSucceeds(s: State, c: Id, n: nat)
    requires TasksOk(s) && ConnInv(s) && Enabled(s, Take(c, n))
    ensures TookOut(s, DoTake(s, c, n), c, n, TaskOf(s, c, n))
  {
    assert EntryOk(s, c, TaskOf(s, c, n).remote);
    EntryOfTask(s, c, n, TaskOf(s, c, n));
    hide TasksOk, ConnInv, Entry;
  }

  /** The task of the offerer that may hold the connection of a chain. */
  function LocalTask(chain: Chain): Option<nat> {
    if chain.Answered? && (chain.loc.Applying? || chain.loc.LocalCompleting?) then Some(chain.loc.n) else None
  }

  function RemoteTask(chain: Chain): Option<nat> {
    if chain.Answered? && chain.rem.RemoteCompleting? then Some(chain.rem.n) else None
  }

  lemma LocalTaskIs(s: State, p: Pair, n: nat)
    requires p in s.chains && ChainOk(s, p) && LocalTask(s.chains[p]) == Some(n)
    ensures p.offerer in s.nodes && n in s.nodes[p.offerer].core.tasks
    ensures var t := s.nodes[p.offerer].core.tasks[n]; Takes(t) && !t.RemoteCplt? && t.remote == p.answerer
  {
  }

  lemma RemoteTaskIs(s: State, p: Pair, n: nat)
    requires p in s.chains && ChainOk(s, p) && RemoteTask(s.chains[p]) == Some(n)
    ensures p.answerer in s.nodes && n in s.nodes[p.answerer].core.tasks
    ensures s.nodes[p.answerer].core.tasks[n] == Client.RemoteCplt(p.offerer)
  {
  }

  /** An entry depends on the two chains of the pair and on whether their tasks hold it. */
  lemma SameEntry(s: State, s': State, c: Id, r: Id)
    requires c in s.nodes && c in s'.nodes
    requires Stage(s', Pair(c, r)) == Stage(s, Pair(c, r)) && Stage(s', Pair(r, c)) == Stage(s, Pair(r, c))
    requires forall n :: Pair(c, r) in s.chains && LocalTask(s.chains[Pair(c, r)]) == Some(n) ==>
      (n in s.nodes[c].held <==> n in s'.nodes[c].held)
    requires forall n :: Pair(r, c) in s.chains && RemoteTask(s.chains[Pair(r, c)]) == Some(n) ==>
      (n in s.nodes[c].held <==> n in s'.nodes[c].held)
    ensures Entry(s', c, r) == Entry(s, c, r)
  {
  }

  /** Only the entry of task `n` of client `c` depends on whether that task holds a connection. */
  lemma OtherEntry(s: State, s': State, c: Id, n: nat, x: Id, r: Id)
    requires ChainInv(s) && x in s.nodes && x in s'.nodes && c in s.nodes && n in s.nodes[c].core.tasks
    requires Stage(s', Pair(x, r)) == Stage(s, Pair(x, r)) && Stage(s', Pair(r, x)) == Stage(s, Pair(r, x))
    requires forall m :: (m in s.nodes[x].held <==> m in s'.nodes[x].held) || (x == c && m == n)
    requires var t := s.nodes[c].core.tasks[n]; x == c ==> !Takes(t) || t.remote != r
    ensures Entry(s', x, r) == Entry(s, x, r)
  {
    var local, remote := Pair(x, r), Pair(r, x);
    if local in s.chains && LocalTask(s.chains[local]).Some? {
      assert ChainOk(s, local);
      LocalTaskIs(s, local, LocalTask(s.chains[local]).value);
    }
    if remote in s.chains && RemoteTask(s.chains[remote]).Some? {
      assert ChainOk(s, remote);
      RemoteTaskIs(s, remote, RemoteTask(s.chains[remote]).value);
    }
    SameEntry(s, s', x, r);
  }

  lemma TakenEntry(s: State, s': State, c: Id, n: nat, t: Client.Task)
    requires TasksOk(s) && TookOut(s, s', c, n, t) && EntryOk(s, c, t.remote)
    ensures EntryOk(s', c, t.remote)
  {
    TaskFact(s, c, n, t);
    hide TasksOk;
  }

  lemma TakeEntry(s: State, s': State, c: Id, n: nat, t: Client.Task, x: Id, r: Id)
    requires ChainInv(s) && TookOut(s, s', c, n, t) && x in s.nodes && EntryOk(s, x, r)
    ensures x in s'.nodes && EntryOk(s', x, r)
  {
    if x == c && r == t.remote {
      TakenEntry(s, s', c, n, t);
    } else {
      hide Entry;
      OtherEntry(s, s', c, n, x, r);
    }
  }

  lemma TakenHeld(s: State, s': State, c: Id, n: nat, t: Client.Task)
    requires ConnInv(s) && TookOut(s, s', c, n, t)
    ensures forall x :: Goes(s', x) ==> Goes(s, x) && x in s'.nodes && HeldOk(s'.nodes[x]) && !s'.nodes[x].mapErr
  {
  }

  lemma TakeKept(s: State, c: Id, n: nat)
    requires ChainInv(s) && ConnInv(s) && Enabled(s, Take(c, n))
    ensures ConnInv(DoTake(s, c, n))
  {
    hide ChainsOk, TasksOk, MessagesOk, RecordsOk, ConnInv, TookOut, DoTake;
    TakeSucceeds(s, c, n);
    TookOutKept(s, DoTake(s, c, n), c, n, TaskOf(s, c, n));
  }

  lemma EntryFact(s: State, c: Id, r: Id)
    requires ConnInv(s)
    ensures Goes(s, c) ==> HeldOk(s.nodes[c]) && !s.nodes[c].mapErr && EntryOk(s, c, r)
  {
  }

  lemma TookOutKept(s: State, s': State, c: Id, n: nat, t: Client.Task)
    requires ChainInv(s) && ConnInv(s) && TookOut(s, s', c, n, t)
    ensures ConnInv(s')
  {
    TakenHeld(s, s', c, n, t);
    hide *;
    forall x, r | Goes(s', x) ensures x in s'.nodes && EntryOk(s', x, r) {
      KnownNode(s', x);
      TookOutEntry(s, s', c, n, t, x, r);
    }
    AllInOrder(s');
  }

  lemma KnownNode(s: State, x: Id)
    requires Goes(s, x)
    ensures x in s.nodes
  {
  }

  lemma AllInOrder(s: State)
    requires forall c :: Goes(s, c) ==> c in s.nodes && HeldOk(s.nodes[c]) && !s.nodes[c].mapErr
    requires forall c, r :: Goes(s, c) ==> c in s.nodes && EntryOk(s, c, r)
    ensures ConnInv(s)
  {
  }

  lemma TookOutEntry(s: State, s': State, c: Id, n: nat, t: Client.Task, x: Id, r: Id)
    requires ChainInv(s) && ConnInv(s) && TookOut(s, s', c, n, t) && Goes(s', x)
    ensures x in s'.nodes && EntryOk(s', x, r)
  {
    hide ChainInv, ConnInv, HeldOk, EntryOk;
    EntryFact(s, x, r);
    TakeEntry(s, s', c, n, t, x, r);
  }

  /** Acting on a task that holds nothing leaves the taken connections as they were. */
  lemma HeldElsewhere(s: State, s': State, c: Id, n: nat, p: Pair)
    requires Worked(s, s', c, n, p) && HeldOk(s.nodes[c])
    requires s'.nodes[c].held == s.nodes[c].held - {n}
    ensures HeldOk(s'.nodes[c])
    ensures forall m :: m in s'.nodes[c].held ==> m < s.nodes[c].core.next
  {
  }

  lemma OtherConnsSame(s: State, s': State, c: Id, r: Id, x: Id, y: Id)
    requires c in s.nodes && c in s'.nodes && s'.nodes == s.nodes[c := s'.nodes[c]] && x in s'.nodes
    requires forall z :: z != r ==> Lookup(s'.nodes[c].conns, z) == Lookup(s.nodes[c].conns, z)
    requires x != c || y != r
    ensures Lookup(s'.nodes[x].conns, y) == Lookup(s.nodes[x].conns, y)
  {
  }

  lemma OtherEntryAt(s: State, s': State, c: Id, n: nat, p: Pair, x: Id, y: Id)
    requires ChainInv(s) && Worked(s, s', c, n, p) && p in s.chains && p in s'.chains && s'.chains == s.chains[p := s'.chains[p]]
    requires s'.nodes[c].held == s.nodes[c].held - {n}
    requires x in s'.nodes && Pair(x, y) != p && Pair(y, x) != p
    ensures Entry(s', x, y) == Entry(s, x, y)
  {
    OtherEntry(s, s', c, n, x, y);
  }

  /** A client acted on one chain and at most on its own entry for that chain. */
  ghost predicate ActedOnPair(s: State, s': State, c: Id, n: nat, p: Pair) {
    && Worked(s, s', c, n, p) && p in s.chains && p in s'.chains && s'.chains == s.chains[p := s'.chains[p]]
    && p.offerer in s.nodes && p.answerer in s.nodes && c in {p.offerer, p.answerer} && Goes(s, c)
    && s'.nodes[c].held == s.nodes[c].held - {n} && s'.nodes[c].mapErr == s.nodes[c].mapErr
    && (forall z :: Pair(c, z) != p && Pair(z, c) != p ==> Lookup(s'.nodes[c].conns, z) == Lookup(s.nodes[c].conns, z))
  }

  lemma PairKept(s: State, s': State, c: Id, n: nat, p: Pair)
    requires ChainInv(s) && ConnInv(s) && ActedOnPair(s, s', c, n, p) && PairInOrder(s', p)
    ensures ConnInv(s')
  {
    PairHeld(s, s', c, n, p);
    hide *;
    forall x, y | Goes(s', x) ensures x in s'.nodes && EntryOk(s', x, y) {
      KnownNode(s', x);
      PairEntry(s, s', c, n, p, x, y);
    }
    AllInOrder(s');
  }

  lemma PairHeld(s: State, s': State, c: Id, n: nat, p: Pair)
    requires ConnInv(s) && ActedOnPair(s, s', c, n, p)
    ensures forall x :: Goes(s', x) ==> x in s'.nodes && HeldOk(s'.nodes[x]) && !s'.nodes[x].mapErr
  {
    HeldElsewhere(s, s', c, n, p);
  }

  lemma PairEntry(s: State, s': State, c: Id, n: nat, p: Pair, x: Id, y: Id)
    requires ChainInv(s) && ConnInv(s) && ActedOnPair(s, s', c, n, p) && PairInOrder(s', p) && Goes(s', x)
    ensures EntryOk(s', x, y)
  {
    EntryFact(s, x, y);
    hide ConnInv;
    if Pair(x, y) != p && Pair(y, x) != p {
      OtherConnsSame(s, s', c, if c == p.offerer then p.answerer else p.offerer, x, y);
      OtherEntryAt(s, s', c, n, p, x, y);
      hide Entry;
    }
  }

  /** The entries of both peers of a pair are in order. */
  ghost predicate PairInOrder(s: State, p: Pair) {
    && p.offerer in s.nodes && p.answerer in s.nodes
    && (Goes(s, p.offerer) ==> EntryOk(s, p.offerer, p.answerer))
    && (Goes(s, p.answerer) ==> EntryOk(s, p.answerer, p.offerer))
  }

  /** What a pair looks like when one of its clients acts. */
  ghost predicate Before(s: State, s': State, c: Id, n: nat, p: Pair) {
    && Worked(s, s', c, n, p) && p in s.chains && p in s'.chains && s'.chains == s.chains[p := s'.chains[p]]
    && p.offerer != p.answerer && PairInOrder(s, p) && Goes(s, c)
    && HeldOk(s.nodes[c]) && (forall m :: m in s.nodes[c].held ==> m < s.nodes[c].core.next)
  }

  lemma PairBefore(s: State, s': State, c: Id, n: nat, p: Pair)
    requires ChainInv(s) && ConnInv(s) && Worked(s, s', c, n, p) && p in s.chains && Goes(s, c)
    requires p in s'.chains && s'.chains == s.chains[p := s'.chains[p]]
    ensures Before(s, s', c, n, p)
  {
    PairFact(s, p);
    assert TasksBelow(s.nodes[c]);
    hide ChainInv, Entry;
  }

  lemma OffersEntries(s: State, s': State, c: Id, n: nat, r: Id, offer: Payload)
    requires Offers(s, s', c, n, r, offer) && Before(s, s', c, n, Pair(c, r)) && s.chains[Pair(c, r)].Creating?
    ensures PairInOrder(s', Pair(c, r)) && ActedOnPair(s, s', c, n, Pair(c, r))
  {
  }

  lemma OffersConns(s: State, s': State, c: Id, n: nat, r: Id, offer: Payload)
    requires ChainInv(s) && ConnInv(s) && Goes(s, c) && Offers(s, s', c, n, r, offer)
    ensures ConnInv(s')
  {
    assert TaskOk(s, c, n, Client.CreateOffer(r));
    PairBefore(s, s', c, n, Pair(c, r));
    OffersEntries(s, s', c, n, r, offer);
    PairKept(s, s', c, n, Pair(c, r));
  }

  lemma AnswersEntries(s: State, s': State, c: Id, n: nat, r: Id, j: nat, answer: Payload)
    requires Answers(s, s', c, n, r, j, answer) && Before(s, s', c, n, Pair(r, c)) && s.chains[Pair(r, c)].Answering?
    ensures PairInOrder(s', Pair(r, c)) && ActedOnPair(s, s', c, n, Pair(r, c))
  {
  }

  lemma AnswersConns(s: State, s': State, c: Id, n: nat, r: Id, j: nat, answer: Payload)
    requires ChainInv(s) && ConnInv(s) && Goes(s, c) && Answers(s, s', c, n, r, j, answer)
    ensures ConnInv(s')
  {
    assert TaskOk(s, c, n, s.nodes[c].core.tasks[n]);
    PairBefore(s, s', c, n, Pair(r, c));
    AnswersEntries(s, s', c, n, r, j, answer);
    PairKept(s, s', c, n, Pair(r, c));
  }

  lemma DeliversEntries(s: State, s': State, c: Id, n: nat, side: Side, i: nat, x: Signal)
    requires var p := SignalPair(Key(side, c), x);
      && Before(s, s', c, n, p)
      && if side == OfferSide then s.chains[p] == OfferSent(i) else s.chains[p].Answered? && s.chains[p].loc.Unread?
    requires Delivers(s, s', c, n, side, i, x)
    requires s'.chains == DeliveredChains(s.chains, c, side, i, x, s.nodes[c].core.next + 1)
    ensures var p := SignalPair(Key(side, c), x); PairInOrder(s', p) && ActedOnPair(s, s', c, n, p)
  {
  }

  lemma DeliversConns(s: State, s': State, c: Id, n: nat, side: Side, i: nat, x: Signal)
    requires ChainInv(s) && ConnInv(s) && Goes(s, c) && Delivers(s, s', c, n, side, i, x)
    requires s'.chains == DeliveredChains(s.chains, c, side, i, x, s.nodes[c].core.next + 1)
    ensures ConnInv(s')
  {
    var p := SignalPair(Key(side, c), x);
    StageBeforeDelivery(s, c, side, i, x);
    PairBefore(s, s', c, n, p);
    DeliversEntries(s, s', c, n, side, i, x);
    PairKept(s, s', c, n, p);
  }

  lemma CompletesActs(s: State, s': State, c: Id, n: nat, p: Pair)
    requires Completes(s, s', c, n, p) && Before(s, s', c, n, p)
    ensures ActedOnPair(s, s', c, n, p)
  {
    hide CoreWorked;
  }

  lemma CompletesOffererEntry(s: State, s': State, c: Id, n: nat, p: Pair)
    requires Completes(s, s', c, n, p) && Before(s, s', c, n, p) && TaskOk(s, c, n, s.nodes[c].core.tasks[n])
    requires Goes(s', p.offerer)
    ensures EntryOk(s', p.offerer, p.answerer)
  {
    hide CoreWorked;
  }

  lemma CompletesAnswererEntry(s: State, s': State, c: Id, n: nat, p: Pair)
    requires Completes(s, s', c, n, p) && Before(s, s', c, n, p) && TaskOk(s, c, n, s.nodes[c].core.tasks[n])
    requires Goes(s', p.answerer)
    ensures EntryOk(s', p.answerer, p.offerer)
  {
    hide CoreWorked;
  }

  lemma CompletesEntries(s: State, s': State, c: Id, n: nat, p: Pair)
    requires Completes(s, s', c, n, p) && Before(s, s', c, n, p) && TaskOk(s, c, n, s.nodes[c].core.tasks[n])
    ensures PairInOrder(s', p) && ActedOnPair(s, s', c, n, p)
  {
    hide Completes, TaskOk, EntryOk;
    CompletesActs(s, s', c, n, p);
    if Goes(s', p.offerer) {
      CompletesOffererEntry(s, s', c, n, p);
    }
    if Goes(s', p.answerer) {
      CompletesAnswererEntry(s, s', c, n, p);
    }
  }

  lemma CompletesConns(s: State, s': State, c: Id, n: nat, p: Pair)
    requires ChainInv(s) && ConnInv(s) && Goes(s, c) && Completes(s, s', c, n, p)
    ensures ConnInv(s')
  {
    assert TaskOk(s, c, n, s.nodes[c].core.tasks[n]);
    PairBefore(s, s', c, n, p);
    CompletesEntries(s, s', c, n, p);
    PairKept(s, s', c, n, p);
  }

  lemma StartsConns(s: State, s': State, c: Id, n: nat, order: seq<Id>)
    requires ChainInv(s) && ConnInv(s) && Starts(s, s', c, n, order)
    ensures ConnInv(s')
  {
    assert Goes(s', c) ==> HeldOk(s'.nodes[c]);
    forall x, y | Goes(s', x) ensures EntryOk(s', x, y) {
      assert EntryOk(s, x, y);
      StartsEntry(s, s', c, n, order, x, y);
    }
  }

  lemma StartsEntry(s: State, s': State, c: Id, n: nat, order: seq<Id>, x: Id, y: Id)
    requires ChainInv(s) && Starts(s, s', c, n, order) && x in s.nodes && EntryOk(s, x, y)
    ensures EntryOk(s', x, y)
  {
    NoChainsYet(s, c, x);
    NoChainsYet(s, c, y);
    if x == c && y in order {
      FirstMessagePair(s, s', c, n, order, y);
    }
    if y == c && x in order {
      FirstMessagePair(s, s', c, n, order, x);
    }
  }

  /** The map knows the peer of a callback that inserts if and only if an offer and an answer cross. */
  lemma KnownIffCrossing(s: State, c: Id, n: nat)
    requires TasksOk(s) && ConnInv(s) && Has(s, c, n)
    ensures var t, conns := TaskOf(s, c, n), s.nodes[c].conns;
      && (t.CreateOffer? ==> (t.remote in conns <==> AnswerMade(s, Pair(t.remote, c))))
      && (t.ReceiveOffer? ==> (t.remote in conns <==> OfferMade(s, Pair(c, t.remote))))
  {
    var t := TaskOf(s, c, n);
    TaskFact(s, c, n, t);
    if !Client.IsListener(t) {
      assert EntryOk(s, c, t.remote);
    }
  }

  /** Placing a connection back succeeds, in every run. */
  lemma PlaceSucceeds(s: State, c: Id, n: nat)
    requires TasksOk(s) && ConnInv(s) && Enabled(s, StepReceiveAnswer(c, n))
    ensures ConnectionMap.Place(s.nodes[c].conns, TaskOf(s, c, n).remote, s.nodes[c].held[n]).1
  {
    var t := TaskOf(s, c, n);
    assert EntryOk(s, c, t.remote);
    EntryOfTask(s, c, n, t);
    hide TasksOk, ConnInv, Entry;
  }

  /** Without crossing offers, the callbacks find in the map just what they need. */
  lemma InsertsAndPlacesSucceed(s: State, c: Id, n: nat)
    requires ChainInv(s) && ConnInv(s) && OneSided(s) && Has(s, c, n)
    ensures var t, conns := TaskOf(s, c, n), s.nodes[c].conns;
      && (t.CreateOffer? || t.ReceiveOffer? ==> t.remote !in conns)
      && (t.ReceiveAnswer? && n in s.nodes[c].held ==> ConnectionMap.Place(conns, t.remote, s.nodes[c].held[n]).1)
  {
    hide ChainsOk, TasksOk, MessagesOk, RecordsOk, ConnInv, OneSided;
    var t := TaskOf(s, c, n);
    TaskFact(s, c, n, t);
    KnownIffCrossing(s, c, n);
    if t.CreateOffer? {
      NoOppositeChains(s, Pair(c, t.remote));
    } else if t.ReceiveOffer? {
      NoOppositeChains(s, Pair(t.remote, c));
    } else if t.ReceiveAnswer? && n in s.nodes[c].held {
      PlaceSucceeds(s, c, n);
    }
  }

  /** A client that fails on its map only stops. */
  lemma MapErrorConns(s: State, c: Id, conns: map<Id, Option<Conn>>)
    requires ConnInv(s) && c in s.nodes
    ensures ConnInv(MapError(s, c, conns))
  {
    forall x, y | Goes(MapError(s, c, conns), x) ensures EntryOk(MapError(s, c, conns), x, y) {
      assert Goes(s, x) && EntryOk(s, x, y);
    }
  }

  lemma CreateOfferConns(s: State, c: Id, n: nat, offer: Payload)
    requires ChainInv(s) && ConnInv(s) && Enabled(s, StepCreateOffer(c, n, offer))
    ensures ConnInv(DoStepCreateOffer(s, c, n, offer))
  {
    hide ChainsOk, MessagesOk, RecordsOk, ConnInv;
    var r := TaskOf(s, c, n).remote;
    CreateOfferWorks(s, c, n, offer);
    if r in s.nodes[c].conns {
      MapErrorConns(s, c, ConnectionMap.Insert(s.nodes[c].conns, r, LocalConn(r)).0);
    } else {
      OffersConns(s, DoStepCreateOffer(s, c, n, offer), c, n, r, offer);
    }
  }

  lemma ReceiveOfferConns(s: State, c: Id, n: nat, answer: Payload)
    requires ChainInv(s) && ConnInv(s) && Enabled(s, StepReceiveOffer(c, n, answer))
    ensures ConnInv(DoStepReceiveOffer(s, c, n, answer))
  {
    hide ChainsOk, MessagesOk, RecordsOk, ConnInv;
    var r := TaskOf(s, c, n).remote;
    ReceiveOfferWorks(s, c, n, answer);
    if r in s.nodes[c].conns {
      MapErrorConns(s, c, ConnectionMap.Insert(s.nodes[c].conns, r, RemoteConn(r)).0);
    } else {
      AnswersConns(s, DoStepReceiveOffer(s, c, n, answer), c, n, r, TaskOf(s, c, n).at, answer);
    }
  }

  lemma CallbackEventsKeepConns(s: State, e: Event)
    requires ChainInv(s) && ConnInv(s) && Enabled(s, e)
    requires e.StepCreateOffer? || e.StepReceiveOffer? || e.StepReceiveAnswer? || e.StepCplt?
    ensures ConnInv(Apply(s, e))
  {
    hide ChainsOk, MessagesOk, RecordsOk, ConnInv;
    match e
    case StepCreateOffer(c, n, offer) => CreateOfferConns(s, c, n, offer);
    case StepReceiveOffer(c, n, answer) => ReceiveOfferConns(s, c, n, answer);
    case StepReceiveAnswer(c, n) =>
      PlaceSucceeds(s, c, n);
      ReceiveAnswerCompletes(s, c, n);
      CompletesConns(s, Apply(s, e), c, n, Pair(c, TaskOf(s, c, n).remote));
    case StepCplt(c, n) =>
      CpltCompletes(s, c, n);
      CompletesConns(s, Apply(s, e), c, n, TaskPair(c, TaskOf(s, c, n)));
  }

  lemma PeerEventConns(node: Node, h: Hub, n: nat, event: PeerEvent)
    ensures var node' := OnPeerEvent(node, h, n, event);
      node'.conns == node.conns && node'.held == node.held && node'.mapErr == node.mapErr
  {
  }

  lemma LaterMessageConns(s: State, c: Id, n: nat)
    requires Enabled(s, StepPeer(c, n))
    ensures SameConns(s, DoStepPeer(s, c, n))
  {
    PeerEventConns(s.nodes[c], s.hub, n, s.streams[c].wire[0]);
    DiscoverySameConns(s, DoStepPeer(s, c, n), c);
  }

  lemma StepPeerConns(s: State, c: Id, n: nat)
    requires ChainInv(s) && DiscoveryInv(s) && ConnInv(s) && Enabled(s, StepPeer(c, n))
    ensures ConnInv(DoStepPeer(s, c, n))
  {
    if s.nodes[c].core.first {
      FirstMessageStarts(s, c, n);
      StartsConns(s, DoStepPeer(s, c, n), c, n, s.streams[c].order);
    } else {
      LaterMessageSame(s, c, n);
      LaterMessageConns(s, c, n);
      SameEntries(s, DoStepPeer(s, c, n));
    }
  }

  lemma ListenerConns(s: State, c: Id, n: nat)
    requires ChainInv(s) && HubInv(s.hub) && ConnInv(s) && Enabled(s, StepListener(c, n))
    ensures ConnInv(DoStepListener(s, c, n))
  {
    assert TasksBelow(s.nodes[c]);
    var side, i, x := ListenerDelivers(s, c, n);
    DeliversConns(s, DoStepListener(s, c, n), c, n, side, i, x);
  }

  lemma ClientSameConns(s: State, e: Event)
    requires Enabled(s, e) && (e.OpenPeer? || e.Open? || e.SyncReply? || e.Stop?)
    ensures SameConns(s, Apply(s, e))
  {
    hide SameConns, DoSyncReply;
    match e
    case OpenPeer(c, order) => DiscoverySameConns(s, DoOpenPeer(s, c, order), c);
    case Open(c, side) => OpenSameConns(s, c, side);
    case SyncReply(c) => SyncReplySameConns(s, c);
    case Stop(c) => DiscoverySameConns(s, Halt(s, c), c);
  }

  lemma OpenSameConns(s: State, c: Id, side: Side)
    requires Enabled(s, Open(c, side))
    ensures SameConns(s, DoOpen(s, c, side))
  {
    DiscoverySameConns(s, DoOpen(s, c, side), c);
  }

  lemma SyncReplySameConns(s: State, c: Id)
    requires Enabled(s, SyncReply(c))
    ensures SameConns(s, DoSyncReply(s, c))
  {
    hide SameConns, Client.RunChanges, Client.FinishDiscovery, Started;
    DiscoverySameConns(s, DoSyncReply(s, c), c);
  }

  lemma IdleConns(s: State, e: Event)
    requires ChainInv(s) && DiscoveryInv(s) && ConnInv(s) && Enabled(s, e) && Idle(e) && !e.Take?
    ensures ConnInv(Apply(s, e))
  {
    IdleSame(s, e);
    if e.Advertise? {
      AdvertiseSameConns(s);
    } else if e.OpenPeer? || e.Open? || e.SyncReply? || e.Stop? {
      ClientSameConns(s, e);
    } else {
      ServerSameConns(s, e);
    }
    SameEntries(s, Apply(s, e));
  }

  lemma ConnsKept(s: State, e: Event)
    requires ChainInv(s) && DiscoveryInv(s) && ConnInv(s) && Enabled(s, e)
    ensures ConnInv(Apply(s, e))
  {
    hide ChainsOk, TasksOk, MessagesOk, RecordsOk, ConnInv;
    match e
    case StepPeer(c, n) => StepPeerConns(s, c, n);
    case StepListener(c, n) => ListenerConns(s, c, n);
    case StepCreateOffer(_, _, _) => CallbackEventsKeepConns(s, e);
    case StepReceiveOffer(_, _, _) => CallbackEventsKeepConns(s, e);
    case StepReceiveAnswer(_, _) => CallbackEventsKeepConns(s, e);
    case StepCplt(_, _) => CallbackEventsKeepConns(s, e);
    case Take(c, n) => TakeKept(s, c, n);
    case _ => IdleConns(s, e);
  }

  lemma {:induction false} ConnsAlways(ss: seq<State>, es: seq<Event>, i: nat)
    requires IsRun(ss, es) && i < |ss|
    ensures ConnInv(ss[i])
  {
    hide Enabled, Apply, DiscoveryInv, ChainInv;
    if i > 0 {
      ChainsAlways(ss, es, i - 1);
      ConnsAlways(ss, es, i - 1);
      ConnsKept(ss[i - 1], es[i - 1]);
    }
  }

  /** `start_peer` calls are serialised: a peer advertises only while no other is still opening its
      listeners. */
  ghost predicate Serial(ss: seq<State>, es: seq<Event>) {
    forall i :: 0 <= i < |es| && i < |ss| && es[i].Advertise? ==>
      forall c :: c in ss[i].nodes ==> ss[i].nodes[c].phase in {Running, Stopped}
  }

  /** Under serialised starts only the newest peer can be starting, and lists only hold older ones. */
  ghost predicate SerialInv(s: State) {
    && (forall c :: c in s.nodes && s.nodes[c].phase in {Advertised, PeerOpen, OfferOpen} ==> c + 1 == s.hub.gen)
    && (forall c, r :: c in s.streams && r in s.streams[c].order ==> r < c)
  }

  lemma SerialOpens(s: State, c: Id, order: seq<Id>)
    requires HubInv(s.hub) && SerialInv(s) && Enabled(s, OpenPeer(c, order))
    ensures SerialInv(DoOpenPeer(s, c, order))
  {
  }

  /** Nothing that serialised starts depend on has changed, except that clients may have stopped or
      finished starting. */
  ghost predicate SameStarts(s: State, s': State) {
    && s'.hub.gen == s.hub.gen
    && (forall c :: c in s'.nodes && s'.nodes[c].phase in {Advertised, PeerOpen, OfferOpen} ==>
          c in s.nodes && s.nodes[c].phase in {Advertised, PeerOpen, OfferOpen})
    && (forall c :: c in s'.streams ==> c in s.streams && s'.streams[c].order == s.streams[c].order)
  }

  lemma StepPeerStarts(s: State, c: Id, n: nat)
    requires Enabled(s, StepPeer(c, n))
    ensures SameStarts(s, DoStepPeer(s, c, n))
  {
    PeerEventShape(s.nodes[c], s.hub, n, s.streams[c].wire[0]);
    hide OnPeerEvent;
  }

  lemma OpenStarts(s: State, c: Id, side: Side)
    requires Enabled(s, Open(c, side))
    ensures SameStarts(s, DoOpen(s, c, side))
  {
  }

  lemma SyncReplyStarts(s: State, c: Id)
    requires Enabled(s, SyncReply(c))
    ensures SameStarts(s, DoSyncReply(s, c))
  {
  }

  lemma ActorStarts(s: State, e: Event)
    requires Enabled(s, e) && (e.Open? || e.PumpPeer? || e.StepPeer? || e.SyncReply? || e.Stop?)
    ensures SameStarts(s, Apply(s, e))
  {
    match e
    case StepPeer(c, n) => StepPeerStarts(s, c, n);
    case Open(c, side) => OpenStarts(s, c, side);
    case SyncReply(c) => SyncReplyStarts(s, c);
    case PumpPeer(c) =>
    case Stop(c) =>
  }

  lemma SideStarts(s: State, s': State)
    requires s'.nodes == s.nodes && s'.streams == s.streams && s'.hub.gen == s.hub.gen
    ensures SameStarts(s, s')
  {
  }

  lemma UndisturbedStarts(s: State, s': State, c: Id)
    requires Undisturbed(s, s', c) && s'.hub.gen == s.hub.gen
    ensures SameStarts(s, s')
  {
  }

  lemma GenStays(s: State, e: Event)
    requires HubInv(s.hub) && Enabled(s, e) && !e.Advertise?
    ensures Apply(s, e).hub.gen == s.hub.gen
  {
    hide HubInv, Evolves;
    HubKept(s, e);
  }

  lemma OthersSameStarts(s: State, e: Event)
    requires DiscoveryInv(s) && Enabled(s, e) && !e.Advertise? && !e.OpenPeer?
    ensures SameStarts(s, Apply(s, e))
  {
    hide HubInv, NodeOk, StreamOk, DiscoveryOk, SameStarts, Undisturbed;
    GenStays(s, e);
    if ChainEvent(e) {
      ChainEventUndisturbed(s, e);
      UndisturbedStarts(s, Apply(s, e), ActorOf(e).value);
    } else if ActorOf(e).None? {
      EventsOnTheSide(s, e);
      SideStarts(s, Apply(s, e));
    } else {
      ActorStarts(s, e);
    }
  }

  lemma SerialAdvertises(s: State)
    requires DiscoveryInv(s) && SerialInv(s) && s.hub.gen < ID_SPACE
    requires forall c :: c in s.nodes ==> s.nodes[c].phase in {Running, Stopped}
    ensures SerialInv(DoAdvertise(s))
  {
    hide StreamOk, DiscoveryOk, NodeOk, ChannelsMatch, AddsInOrder, Fold;
    AdvertiseKeeps(s.hub);
    NewcomerOk(s);
  }

  lemma SameStartsKept(s: State, s': State)
    requires SerialInv(s) && SameStarts(s, s')
    ensures SerialInv(s')
  {
  }

  lemma SerialKept(s: State, e: Event)
    requires DiscoveryInv(s) && SerialInv(s) && Enabled(s, e)
    requires e.Advertise? ==> forall c :: c in s.nodes ==> s.nodes[c].phase in {Running, Stopped}
    ensures SerialInv(Apply(s, e))
  {
    if e.Advertise? {
      SerialAdvertises(s);
    } else if e.OpenPeer? {
      SerialOpens(s, e.c, e.order);
    } else {
      OthersSameStarts(s, e);
      SameStartsKept(s, Apply(s, e));
    }
  }

  lemma {:induction false} SerialAlways(ss: seq<State>, es: seq<Event>, i: nat)
    requires IsRun(ss, es) && Serial(ss, es) && i < |ss|
    ensures SerialInv(ss[i]) && OneSided(ss[i])
  {
    hide DiscoveryInv, Enabled, Apply, OneSided;
    if i > 0 {
      Convergence.DiscoveryAlways(ss, es, i - 1);
      SerialAlways(ss, es, i - 1);
      SerialKept(ss[i - 1], es[i - 1]);
    }
    SerialIsOneSided(ss[i]);
  }

  lemma SerialIsOneSided(s: State)
    requires SerialInv(s)
    ensures OneSided(s)
  {
  }
}
