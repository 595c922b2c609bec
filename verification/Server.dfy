/** The signalling server: its registry of peers, and each RPC handler as one atomic function. */
module Server {
  import opened Vocabulary
  import opened Channels

  datatype Key = Key(side: Side, id: Id)

  /** The server's state: the number of IDs generated; the registered peers, each with the sides
      on which its listener was opened; everything broadcast; and every channel ever opened. */
  datatype Hub = Hub(gen: nat, peers: map<Id, set<Side>>, log: seq<Change>, chans: map<Key, Chan>)

  const EMPTY: Hub := Hub(0, map[], [], map[])

  function Admit(h: Hub): (Hub, Reply<Id>) {
    var id := h.gen % ID_SPACE;
    if id in h.peers then (h.(gen := h.gen + 1), Err(InternalError))
    else (h.(gen := h.gen + 1, peers := h.peers[id := {}], log := h.log + [Add(id)]), Ok(id))
  }

  /** Broadcasts the removal first, whether or not the peer is registered. */
  function Evict(h: Hub, id: Id): (Hub, Reply<()>) {
    var announced := h.(log := h.log + [Remove(id)]);
    if id in h.peers then (announced.(peers := h.peers - {id}), Ok(()))
    else (announced, Err(FailedPrecondition))
  }

  function Discover(h: Hub, id: Id): set<Id> {
    h.peers.Keys - {id}
  }

  /** Opens the offer or the answer listener of a peer, once. */
  function OpenListener(h: Hub, side: Side, id: Id): (Hub, Reply<()>) {
    if id !in h.peers || side in h.peers[id] then (h, Err(FailedPrecondition))
    else (h.(peers := h.peers[id := h.peers[id] + {side}], chans := h.chans[Key(side, id) := NewChan()]), Ok(()))
  }

  /** Why a signal is refused, or that it is accepted. */
  datatype Verdict = Absent | NotListening | Gone | Overfull | Accept

  function Judge(h: Hub, side: Side, target: Id): Verdict {
    if target !in h.peers then Absent
    else if side !in h.peers[target] || Key(side, target) !in h.chans then NotListening
    else
      match Room(h.chans[Key(side, target)])
      case Disconnected => Gone
      case Full => Overfull
      case Sent => Accept
  }

  function Send(h: Hub, side: Side, target: Id, x: Signal): (Hub, Reply<()>) {
    match Judge(h, side, target)
    case Absent => (h, Err(FailedPrecondition))
    case NotListening => (h, Err(FailedPrecondition))
    case Gone => (Evict(h, target).0, Err(FailedPrecondition))
    case Overfull => (h, Err(Aborted))
    case Accept => (h.(chans := h.chans[Key(side, target) := Push(h.chans[Key(side, target)], x).0]), Ok(()))
  }

  /** What forwarding a signal does: a target that is not registered, or does not listen, is refused
      for a failed precondition; so is one that has disconnected, whose removal is broadcast and
      which is unregistered; a full channel aborts; otherwise the target's channel, and nothing
      else, takes the signal. */
  ghost predicate Forwards(h: Hub, h': Hub, side: Side, target: Id, x: Signal, r: Reply<()>) {
    var key := Key(side, target);
    if target !in h.peers || side !in h.peers[target] || key !in h.chans then h' == h && r == Err(FailedPrecondition)
    else if !h.chans[key].alive then
      h' == h.(peers := h.peers - {target}, log := h.log + [Remove(target)]) && r == Err(FailedPrecondition)
    else if |h.chans[key].log| - h.chans[key].fwd >= 16 then h' == h && r == Err(Aborted)
    else h' == h.(chans := h.chans[key := h.chans[key].(log := h.chans[key].log + [Some(x)])]) && r == Ok(())
  }

  lemma SendForwards(h: Hub, side: Side, target: Id, x: Signal)
    ensures Forwards(h, Send(h, side, target, x).0, side, target, x, Send(h, side, target, x).1)
  {
  }
}
