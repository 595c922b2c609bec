/** The signalling server as the object that its RPC handlers share. */
module SignallingServer {
  import opened Vocabulary
  import opened Channels
  import opened Broadcast
  import opened Server

  /** The write-once senders of a registered peer. */
  datatype Listeners = Listeners(offerTx: Option<SignalChannel>, answerTx: Option<SignalChannel>)

  function Tx(l: Listeners, side: Side): Option<SignalChannel> {
    if side == OfferSide then l.offerTx else l.answerTx
  }

  function Opened(l: Listeners, side: Side, channel: SignalChannel): Listeners {
    if side == OfferSide then l.(offerTx := Some(channel)) else l.(answerTx := Some(channel))
  }

  function OpenSides(l: Listeners): (sides: set<Side>)
    ensures forall side :: side in sides <==> Tx(l, side).Some?
  {
    (if l.offerTx.Some? then {OfferSide} else {}) + (if l.answerTx.Some? then {AnswerSide} else {})
  }

  function SidesOf(peers: map<Id, Listeners>): map<Id, set<Side>> {
    map id | id in peers :: OpenSides(peers[id])
  }

  ghost function Contents(channels: map<Key, SignalChannel>): map<Key, Chan>
    reads channels.Values
  {
    map key | key in channels :: channels[key].chan
  }

  /** All channels are in order, and no two keys share one. */
  ghost predicate ChannelsValid(channels: map<Key, SignalChannel>)
    reads channels.Values
  {
    && (forall key :: key in channels ==> channels[key].Valid())
    && (forall k, l :: k in channels && l in channels && k != l ==> channels[k] != channels[l])
  }

  /** The registry's senders belong to the channels opened under their keys. */
  ghost predicate Linked(peers: map<Id, Listeners>, channels: map<Key, SignalChannel>) {
    forall id, side :: id in peers && Tx(peers[id], side).Some? ==>
      Key(side, id) in channels && channels[Key(side, id)] == Tx(peers[id], side).value
  }

  lemma SidesUpdated(peers: map<Id, Listeners>, id: Id, l: Listeners)
    ensures SidesOf(peers[id := l]) == SidesOf(peers)[id := OpenSides(l)]
  {
  }

  lemma SidesOpened(l: Listeners, side: Side, channel: SignalChannel)
    ensures OpenSides(Opened(l, side, channel)) == OpenSides(l) + {side}
  {
  }

  lemma OpenedLinked(peers: map<Id, Listeners>, channels: map<Key, SignalChannel>, side: Side, id: Id, channel: SignalChannel)
    requires Linked(peers, channels) && id in peers
    ensures Linked(map[id := Opened(peers[id], side, channel)], channels[Key(side, id) := channel])
  {
    forall x | Tx(Opened(peers[id], side, channel), x).Some? && x != side
      ensures Tx(peers[id], x).Some? && channels[Key(side, id) := channel][Key(x, id)] == Tx(peers[id], x).value
    {
    }
  }

  lemma SidesRemoved(peers: map<Id, Listeners>, id: Id)
    ensures SidesOf(peers - {id}) == SidesOf(peers) - {id}
  {
  }

  lemma Extended(order: seq<Id>, ids: set<Id>, x: Id, id: Id)
    requires Lists(order, ids) && x !in ids
    ensures Lists(if x != id then order + [x] else order, ids + ({x} - {id}))
  {
  }

  function VerdictOf(sent: SendResult): Verdict {
    match sent
    case Sent => Accept
    case Full => Overfull
    case Disconnected => Gone
  }

  /** How opening a listener answers a request and changes the server: a peer that is not registered,
      or has opened this side before, is refused; otherwise its entry gets this side, and a channel
      that holds one empty message is opened, while all else stays. */
  ghost predicate Opens<T>(h: Hub, h': Hub, side: Side, localPeer: Option<Id>, r: Reply<T>) {
    if localPeer.None? then h' == h && r.Err? && r.code == InvalidArgument
    else
      var id := localPeer.value;
      if id !in h.peers || side in h.peers[id] then h' == h && r.Err? && r.code == FailedPrecondition
      else
        && r.Ok?
        && h' == h.(peers := h.peers[id := h.peers[id] + {side}], chans := h.chans[Key(side, id) := Chan([None], 0, 0, true)])
  }

  /** Opening is what the specification of the handler says. */
  lemma OpensAsSpecified<T>(h: Hub, h': Hub, side: Side, id: Id, r: Reply<T>)
    requires Opens(h, h', side, Some(id), r)
    ensures h' == OpenListener(h, side, id).0
    ensures if OpenListener(h, side, id).1.Ok? then r.Ok? else r.Err? && r.code == OpenListener(h, side, id).1.code
  {
  }

  class Signalling {
    var generator: nat                        // the next ID, a 64-bit counter
    var peers: map<Id, Listeners>
    const ring: BroadcastRing
    ghost var issued: nat                     // how many IDs the generator has issued
    ghost var channels: map<Key, SignalChannel>  // every channel ever opened

    ghost function Repr(): set<object>
      reads this
    {
      {this, ring} + channels.Values
    }

    ghost predicate Valid()
      reads Repr()
    {
      && ring.Valid() && generator == issued % ID_SPACE
      && ChannelsValid(channels) && Linked(peers, channels)
    }

    /** The state of the server as the handlers' specifications see it. */
    ghost function Abs(): Hub
      reads Repr()
    {
      Hub(issued, SidesOf(peers), ring.log, Contents(channels))
    }

    constructor ()
      ensures Valid() && fresh(Repr()) && Abs() == EMPTY
    {
      generator, peers := 0, map[];
      ring := new BroadcastRing();
      issued, channels := 0, map[];
    }

    /** Transmits a change to the peer listeners. */
    method Announce(change: Change)
      requires Valid()
      modifies ring
      ensures Valid() && Abs() == old(Abs()).(log := old(Abs()).log + [change])
    {
      ring.TryBroadcast(change);
    }

    /** Sets the entry of a peer in the registry. */
    method SetEntry(id: Id, l: Listeners)
      requires Valid() && Linked(map[id := l], channels)
      modifies this`peers
      ensures Valid() && peers == old(peers)[id := l]
      ensures Abs() == old(Abs()).(peers := old(Abs()).peers[id := OpenSides(l)])
    {
      SidesUpdated(peers, id, l);
      peers := peers[id := l];
    }

    /** Inserts the entry of a new peer, and then broadcasts its addition. */
    method Register(id: Id)
      requires Valid()
      modifies this`peers, ring
      ensures Valid()
      ensures Abs() == old(Abs()).(peers := old(Abs()).peers[id := {}], log := old(Abs()).log + [Add(id)])
    {
      assert OpenSides(Listeners(None, None)) == {};
      hide Linked, SidesOf, OpenSides, SignalChannel.Valid, BroadcastRing.Valid, ChannelsValid, Contents;
      SetEntry(id, Listeners(None, None));
      Announce(Add(id));
    }

    method Advertise() returns (r: Reply<Id>)
      requires Valid()
      modifies Repr()
      ensures Valid() && Repr() == old(Repr()) && channels == old(channels)
      ensures (Abs(), r) == Admit(old(Abs()))
      ensures var h, id := old(Abs()), old(Abs()).gen % 0x1_0000_0000_0000_0000;
        if id in h.peers then r == Err(InternalError) && Abs() == h.(gen := h.gen + 1)
        else r == Ok(id) && Abs() == h.(gen := h.gen + 1, peers := h.peers[id := {}], log := h.log + [Add(id)])
    {
      hide Linked, OpenSides, SignalChannel.Valid, BroadcastRing.Valid, ChannelsValid, Contents;
      var id := generator;
      generator, issued := (generator + 1) % ID_SPACE, issued + 1;
      if id in peers {
        return Err(InternalError);
      }
      Register(id);
      r := Ok(id);
    }

    /** Dropping a channel's sender changes nothing that the server can see. */
    method DropSender(side: Side, ghost id: Id, tx: Option<SignalChannel>)
      requires Valid() && (tx.Some? ==> Key(side, id) in channels && channels[Key(side, id)] == tx.value)
      modifies if tx.Some? then {tx.value} else {}
      ensures Valid() && Abs() == old(Abs()) && (tx.Some? ==> !tx.value.senderAlive)
    {
      hide Linked, SidesOf, BroadcastRing.Valid;
      if tx.Some? {
        tx.value.DropSender();
      }
    }

    /** Broadcasts the removal, and takes the entry out of the registry, which closes the sending
        ends of its channels. */
    method HandleTeardown(id: Id) returns (r: Reply<()>)
      requires Valid()
      modifies Repr()
      ensures Valid() && Repr() == old(Repr())
      ensures (Abs(), r) == Evict(old(Abs()), id)
      ensures var h := old(Abs()); Abs() == h.(peers := h.peers - {id}, log := h.log + [Remove(id)])
      ensures r == if id in old(Abs()).peers then Ok(()) else Err(FailedPrecondition)
      ensures forall side :: id in old(peers) && Tx(old(peers)[id], side).Some? ==> !Tx(old(peers)[id], side).value.senderAlive
    {
      hide SignalChannel.Valid, BroadcastRing.Valid;
      Announce(Remove(id));
      if id !in peers {
        return Err(FailedPrecondition);
      }
      SidesRemoved(peers, id);
      var l := peers[id];
      forall side | Tx(l, side).Some?
        ensures Key(side, id) in channels && channels[Key(side, id)] == Tx(l, side).value && Tx(l, side).value in Repr()
      {
        Found(side, id);
      }
      assert l.offerTx == Tx(l, OfferSide) && l.answerTx == Tx(l, AnswerSide);
      peers := peers - {id};
      DropSender(OfferSide, id, l.offerTx);
      DropSender(AnswerSide, id, l.answerTx);
      r := Ok(());
    }

    method Teardown(localPeer: Option<Id>) returns (r: Reply<()>)
      requires Valid()
      modifies Repr()
      ensures Valid() && Repr() == old(Repr())
      ensures localPeer.None? ==> r == Err(InvalidArgument) && Abs() == old(Abs())
      ensures localPeer.Some? ==> (Abs(), r) == Evict(old(Abs()), localPeer.value)
      ensures localPeer.Some? ==>
        var h, id := old(Abs()), localPeer.value;
        && Abs() == h.(peers := h.peers - {id}, log := h.log + [Remove(id)])
        && r == if id in h.peers then Ok(()) else Err(FailedPrecondition)
    {
      if localPeer.None? {
        return Err(InvalidArgument);
      }
      r := HandleTeardown(localPeer.value);
    }

    /** Lists the registered peers other than `id`, in the arbitrary order of the hash map. */
    method Others(id: Id) returns (order: seq<Id>)
      requires Valid()
      ensures Lists(order, Discover(Abs(), id))
    {
      order := [];
      var rest := peers.Keys;
      while rest != {}
        invariant rest <= peers.Keys
        invariant Lists(order, peers.Keys - rest - {id})
        decreases |rest|
      {
        var x :| x in rest;
        Extended(order, peers.Keys - rest - {id}, x, id);
        assert peers.Keys - (rest - {x}) - {id} == peers.Keys - rest - {id} + ({x} - {id});
        rest := rest - {x};
        if x != id {
          order := order + [x];
        }
      }
    }

    method PeerDiscover(localPeer: Option<Id>) returns (r: Reply<seq<Id>>)
      requires Valid()
      ensures localPeer.None? ==> r == Err(InvalidArgument)
      ensures localPeer.Some? ==> r.Ok? && Lists(r.value, Abs().peers.Keys - {localPeer.value})
    {
      if localPeer.None? {
        return Err(InvalidArgument);
      }
      var order := Others(localPeer.value);
      r := Ok(order);
    }

    method OpenPeerListener(localPeer: Option<Id>) returns (r: Reply<PeerListenerStream>)
      requires Valid()
      ensures localPeer.None? ==> r == Err(InvalidArgument)
      ensures localPeer.Some? ==> r.Ok? && fresh(r.value) && r.value.ring == ring
      ensures localPeer.Some? ==>
        r.value.Abs() == NewStream(r.value.order, Abs().log) && Lists(r.value.order, Abs().peers.Keys - {localPeer.value})
      ensures localPeer.Some? ==>
        r.value.wire == [Changes(Adds(r.value.order))] && r.value.pos == r.value.start == |Abs().log| && !r.value.ended
    {
      if localPeer.None? {
        return Err(InvalidArgument);
      }
      var order := Others(localPeer.value);
      var stream := new PeerListenerStream(ring, order);
      r := Ok(stream);
    }

    /** Notes a new channel. */
    ghost method Own(side: Side, id: Id, channel: SignalChannel)
      requires Valid() && channel.Valid() && channel !in channels.Values && (id in peers ==> Tx(peers[id], side).None?)
      modifies this`channels
      ensures Valid() && channels == old(channels)[Key(side, id) := channel]
      ensures Abs() == old(Abs()).(chans := old(Abs()).chans[Key(side, id) := channel.chan])
    {
      hide SidesOf, SignalChannel.Valid;
      channels := channels[Key(side, id) := channel];
      assert Contents(channels) == old(Contents(channels))[Key(side, id) := channel.chan];
    }

    /** Gives the sending end of a new channel to the entry of a registered peer. */
    method SetSender(side: Side, id: Id, channel: SignalChannel)
      requires Valid() && channel.Valid() && channel.chan == NewChan() && channel !in channels.Values
      requires id in peers && Tx(peers[id], side).None?
      modifies this`channels, this`peers
      ensures Valid() && channels == old(channels)[Key(side, id) := channel]
      ensures var h := old(Abs());
        Abs() == h.(peers := h.peers[id := h.peers[id] + {side}], chans := h.chans[Key(side, id) := NewChan()])
    {
      var l := Opened(peers[id], side, channel);
      SidesOpened(peers[id], side, channel);
      OpenedLinked(peers, channels, side, id, channel);
      assert Abs().peers[id] == OpenSides(peers[id]);
      hide SidesOf, SignalChannel.Valid, BroadcastRing.Valid, OpenSides, Linked, ChannelsValid, Contents, Opened;
      Own(side, id, channel);
      SetEntry(id, l);
    }

    /** Opens the listener of one side, once: a second attempt leaves the first channel alone. */
    method Listen(side: Side, localPeer: Option<Id>) returns (r: Reply<SignalChannel>)
      requires Valid()
      modifies this
      ensures Valid() && Opens(old(Abs()), Abs(), side, localPeer, r)
      ensures r.Ok? ==> r.value.Valid() && r.value.chan == Chan([None], 0, 0, true) && r.value.senderAlive
      ensures if r.Ok? then fresh(r.value) && channels == old(channels)[Key(side, localPeer.value) := r.value]
              else channels == old(channels)
    {
      if localPeer.None? {
        return Err(InvalidArgument);
      }
      var id := localPeer.value;
      if id !in peers {
        return Err(FailedPrecondition);
      }
      var channel := new SignalChannel();
      if Tx(peers[id], side).Some? {
        return Err(FailedPrecondition);
      }
      SetSender(side, id, channel);
      r := Ok(channel);
    }

    method OpenOfferListener(localPeer: Option<Id>) returns (r: Reply<SignalChannel>)
      requires Valid()
      modifies this
      ensures Valid() && Opens(old(Abs()), Abs(), OfferSide, localPeer, r)
      ensures r.Ok? ==> r.value.Valid() && r.value.chan == Chan([None], 0, 0, true) && r.value.senderAlive
      ensures if r.Ok? then fresh(r.value) && channels == old(channels)[Key(OfferSide, localPeer.value) := r.value]
              else channels == old(channels)
    {
      r := Listen(OfferSide, localPeer);
    }

    method OpenAnswerListener(localPeer: Option<Id>) returns (r: Reply<SignalChannel>)
      requires Valid()
      modifies this
      ensures Valid() && Opens(old(Abs()), Abs(), AnswerSide, localPeer, r)
      ensures r.Ok? ==> r.value.Valid() && r.value.chan == Chan([None], 0, 0, true) && r.value.senderAlive
      ensures if r.Ok? then fresh(r.value) && channels == old(channels)[Key(AnswerSide, localPeer.value) := r.value]
              else channels == old(channels)
    {
      r := Listen(AnswerSide, localPeer);
    }

    /** Judging a signal is looking up the target's sender and trying it. */
    lemma Judged(side: Side, target: Id)
      requires Valid()
      ensures Judge(Abs(), side, target) ==
        if target !in peers then Absent
        else if Tx(peers[target], side).None? then NotListening
        else VerdictOf(Room(Tx(peers[target], side).value.chan))
    {
    }

    method Deliver(ghost key: Key, tx: SignalChannel, x: Signal) returns (sent: SendResult)
      requires Valid() && key in channels && channels[key] == tx
      modifies tx
      ensures Valid()
      ensures var ch := old(Abs()).chans[key];
        sent == Room(ch) && Abs() == old(Abs()).(chans := old(Abs()).chans[key := Push(ch, x).0])
      ensures sent != Sent ==> Abs() == old(Abs())
    {
      hide Linked, SidesOf, SignalChannel.Valid, BroadcastRing.Valid;
      sent := tx.TrySend(x);
      assert Contents(channels) == old(Contents(channels))[key := channels[key].chan];
    }

    lemma SentWhen(h: Hub, side: Side, target: Id, x: Signal)
      requires Key(side, target) in h.chans && Judge(h, side, target) == Accept
      ensures Send(h, side, target, x).0 == h.(chans := h.chans[Key(side, target) := Push(h.chans[Key(side, target)], x).0])
    {
    }

    /** Trying the target's sender is what the verdict on the signal is about. */
    method TrySender(side: Side, target: Id, x: Signal) returns (v: Verdict)
      requires Valid() && target in peers && Tx(peers[target], side).Some?
      modifies Repr()
      ensures Valid() && Repr() == old(Repr())
      ensures v == Judge(old(Abs()), side, target)
      ensures Abs() == if v == Accept then Send(old(Abs()), side, target, x).0 else old(Abs())
    {
      hide Linked, SidesOf, ChannelsValid, SignalChannel.Valid, BroadcastRing.Valid, Judge, Push, Room, Evict;
      Judged(side, target);
      Found(side, target);
      if Judge(Abs(), side, target) == Accept {
        SentWhen(Abs(), side, target, x);
      }
      hide Send;
      var sent := Deliver(Key(side, target), Tx(peers[target], side).value, x);
      v := VerdictOf(sent);
    }

    /** Looks up the target's sender and tries to send on it. */
    method TryForward(side: Side, target: Id, x: Signal) returns (v: Verdict)
      requires Valid()
      modifies Repr()
      ensures Valid() && Repr() == old(Repr())
      ensures v == Judge(old(Abs()), side, target)
      ensures Abs() == if v == Accept then Send(old(Abs()), side, target, x).0 else old(Abs())
    {
      Judged(side, target);
      if target !in peers {
        return Absent;
      }
      if Tx(peers[target], side).None? {
        return NotListening;
      }
      v := TrySender(side, target, x);
    }

    /** A sender in the registry belongs to the channel of its key. */
    lemma Found(side: Side, id: Id)
      requires Valid() && id in peers && Tx(peers[id], side).Some?
      ensures Key(side, id) in channels && channels[Key(side, id)] == Tx(peers[id], side).value
    {
    }

    /** Forwards a signal to its target's listener; a target that has disconnected is dropped. */
    method Transmit(side: Side, target: Id, x: Signal) returns (r: Reply<()>)
      requires Valid()
      modifies Repr()
      ensures Valid() && Repr() == old(Repr())
      ensures (Abs(), r) == Send(old(Abs()), side, target, x)
    {
      hide Judge, Evict, Push, Signalling.Valid;
      var v := TryForward(side, target, x);
      match v
      case Accept => r := Ok(());
      case Overfull => r := Err(Aborted);
      case Gone =>
        var _ := HandleTeardown(target);
        r := Err(FailedPrecondition);
      case Absent => r := Err(FailedPrecondition);
      case NotListening => r := Err(FailedPrecondition);
    }

    /** Forwards an offer to the answerer's offer listener. */
    method SignalOffer(answererPeer: Option<Id>, offerSignal: Option<Signal>) returns (r: Reply<()>)
      requires Valid()
      modifies Repr()
      ensures Valid() && Repr() == old(Repr())
      ensures if answererPeer.Some? && offerSignal.Some? then (Abs(), r) == Send(old(Abs()), OfferSide, answererPeer.value, offerSignal.value)
              else Abs() == old(Abs()) && r == Err(InvalidArgument)
      ensures answererPeer.Some? && offerSignal.Some? ==> Forwards(old(Abs()), Abs(), OfferSide, answererPeer.value, offerSignal.value, r)
    {
      if answererPeer.None? || offerSignal.None? {
        return Err(InvalidArgument);
      }
      SendForwards(Abs(), OfferSide, answererPeer.value, offerSignal.value);
      r := Transmit(OfferSide, answererPeer.value, offerSignal.value);
    }

    /** Forwards an answer to the offerer's answer listener. */
    method SignalAnswer(offererPeer: Option<Id>, answerSignal: Option<Signal>) returns (r: Reply<()>)
      requires Valid()
      modifies Repr()
      ensures Valid() && Repr() == old(Repr())
      ensures if offererPeer.Some? && answerSignal.Some? then (Abs(), r) == Send(old(Abs()), AnswerSide, offererPeer.value, answerSignal.value)
              else Abs() == old(Abs()) && r == Err(InvalidArgument)
      ensures offererPeer.Some? && answerSignal.Some? ==> Forwards(old(Abs()), Abs(), AnswerSide, offererPeer.value, answerSignal.value, r)
    {
      if offererPeer.None? || answerSignal.None? {
        return Err(InvalidArgument);
      }
      SendForwards(Abs(), AnswerSide, offererPeer.value, answerSignal.value);
      r := Transmit(AnswerSide, offererPeer.value, answerSignal.value);
    }
  }
}
