/** The signalling client as the object that its owner steps. */
module SignallingPeer {
  import opened Vocabulary
  import opened Channels
  import opened Broadcast
  import opened Server
  import opened SignallingServer
  import Client
  import StepContract

  /** The two channels of a peer are open and hold one empty message each; nothing else differs. */
  ghost predicate BothOpen(h: Hub, h': Hub, id: Id) {
    h' == h.(peers := h.peers[id := {OfferSide, AnswerSide}],
             chans := h.chans[Key(OfferSide, id) := Chan([None], 0, 0, true)][Key(AnswerSide, id) := Chan([None], 0, 0, true)])
  }

  /** A peer whose channels have just been opened can be signalled on both sides. */
  lemma BothAccept(h: Hub, h': Hub, id: Id)
    requires BothOpen(h, h', id)
    ensures Judge(h', OfferSide, id) == Judge(h', AnswerSide, id) == Accept
  {
  }

  method OpenListeners(server: Signalling, localId: Id) returns (offerListener: SignalChannel, answerListener: SignalChannel)
    requires server.Valid() && localId in server.Abs().peers && server.Abs().peers[localId] == {}
    modifies server
    ensures server.Valid() && BothOpen(old(server.Abs()), server.Abs(), localId)
    ensures fresh(offerListener) && fresh(answerListener) && offerListener != answerListener
    ensures offerListener.senderAlive && answerListener.senderAlive
    ensures server.channels == old(server.channels)[Key(OfferSide, localId) := offerListener][Key(AnswerSide, localId) := answerListener]
  {
    hide SidesOf, Contents, Linked, ChannelsValid, BroadcastRing.Valid;
    var offers := server.OpenOfferListener(Some(localId));
    assert offers.Ok? && {} + {OfferSide} == {OfferSide};
    var answers := server.OpenAnswerListener(Some(localId));
    assert answers.Ok?;
    offerListener, answerListener := offers.value, answers.value;
    ghost var h := old(server.Abs());
    assert {OfferSide} + {AnswerSide} == {OfferSide, AnswerSide};
    assert h.peers[localId := {OfferSide}][localId := {OfferSide, AnswerSide}] == h.peers[localId := {OfferSide, AnswerSide}];
  }

  /** Opens the three listeners of a peer that has just advertised. */
  method OpenPeer(server: Signalling, localId: Id) returns (peer: RtcSignallingPeer)
    requires server.Valid() && localId in server.Abs().peers && server.Abs().peers[localId] == {}
    modifies server
    ensures server.Valid() && BothOpen(old(server.Abs()), server.Abs(), localId)
    ensures fresh(peer) && fresh(peer.peerListener) && fresh(peer.offerListener) && fresh(peer.answerListener)
    ensures server.channels == old(server.channels)[Key(OfferSide, localId) := peer.offerListener][Key(AnswerSide, localId) := peer.answerListener]
    ensures Joined(peer, server, localId, old(server.Abs()))
  {
    hide BothOpen, SidesOf, Contents, Linked, ChannelsValid, SignalChannel.Valid, BroadcastRing.Valid;
    var peerListener := server.OpenPeerListener(Some(localId));
    assert peerListener.Ok?;
    var offerListener, answerListener := OpenListeners(server, localId);
    peer := new RtcSignallingPeer(localId, peerListener.value, offerListener, answerListener, server);
  }

  /** Advertises, and then opens the peer, the offer and the answer listener: when no other request
      is handled in between, none of this fails once an ID is issued. The peer is then registered
      under that ID with two new channels, which the server would forward to, and its addition was
      broadcast; nothing else on the server differs. */
  method StartPeer(server: Signalling) returns (r: Reply<RtcSignallingPeer>)
    requires server.Valid()
    modifies server.Repr()
    ensures server.Valid()
    ensures var h, h', id := old(server.Abs()), server.Abs(), old(server.Abs()).gen % 0x1_0000_0000_0000_0000;
      if id in h.peers then r == Err(InternalError) && h' == h.(gen := h.gen + 1)
      else
        && r.Ok? && fresh(r.value) && fresh(r.value.peerListener) && fresh(r.value.offerListener) && fresh(r.value.answerListener)
        && BothOpen(h.(gen := h.gen + 1, log := h.log + [Add(id)]), h', id)
        && Judge(h', OfferSide, id) == Judge(h', AnswerSide, id) == Accept
        && server.channels == old(server.channels)[Key(OfferSide, id) := r.value.offerListener][Key(AnswerSide, id) := r.value.answerListener]
        && Joined(r.value, server, id, h.(gen := h.gen + 1, peers := h.peers[id := {}], log := h.log + [Add(id)]))
  {
    hide Signalling.Valid, Joined, Judge, Admit;
    var advertised := server.Advertise();
    if advertised.Err? {
      return Err(advertised.code);
    }
    ghost var admitted := server.Abs();
    var peer := OpenPeer(server, advertised.value);
    BothAccept(admitted, server.Abs(), advertised.value);
    r := Ok(peer);
  }

  /** The new peer has its ID, nobody discovered and three listeners pending; an initial list of the
      others registered in `h` is first on its peer stream; and its channels can still be sent on. */
  ghost predicate Joined(peer: RtcSignallingPeer, server: Signalling, id: Id, h: Hub)
    reads peer, peer.peerListener, peer.offerListener, peer.answerListener
  {
    && peer.Valid() && peer.server == server && peer.Core() == Client.NewCore(id)
    && peer.peerListener.wire == [Changes(Adds(peer.peerListener.order))] && !peer.peerListener.ended
    && peer.peerListener.pos == peer.peerListener.start == |h.log|
    && Lists(peer.peerListener.order, h.peers.Keys - {id})
    && peer.offerListener.senderAlive && peer.answerListener.senderAlive
  }

  class RtcSignallingPeer {
    const localId: Id
    var discoveredPeers: set<Id>
    var firstDiscovery: bool
    var unorderedFuts: map<nat, Client.Task>
    var pushed: nat  // numbers the pushed futures
    const server: Signalling
    const peerListener: PeerListenerStream
    const offerListener: SignalChannel
    const answerListener: SignalChannel

    ghost predicate Valid()
      reads this
    {
      forall n :: n in unorderedFuts ==> n < pushed
    }

    ghost function Core(): Client.Core
      reads this
    {
      Client.Core(localId, discoveredPeers, firstDiscovery, unorderedFuts, pushed)
    }

    constructor (localId: Id, peerListener: PeerListenerStream, offerListener: SignalChannel, answerListener: SignalChannel,
                 server: Signalling)
      ensures Valid() && Core() == Client.NewCore(localId)
      ensures this.server == server && this.peerListener == peerListener
      ensures this.offerListener == offerListener && this.answerListener == answerListener
    {
      this.localId, this.server := localId, server;
      this.peerListener, this.offerListener, this.answerListener := peerListener, offerListener, answerListener;
      discoveredPeers, firstDiscovery := {}, true;
      unorderedFuts := map[0 := Client.PeerListener, 1 := Client.Listener(OfferSide), 2 := Client.Listener(AnswerSide)];
      pushed := 3;
    }

    method Push(t: Client.Task)
      modifies this`unorderedFuts, this`pushed
      ensures Core() == Client.Queue(old(Core()), t)
      ensures old(Valid()) ==> Valid()
    {
      unorderedFuts, pushed := unorderedFuts[pushed := t], pushed + 1;
    }

    /** The peer listener task: what it resolves to, or None while it is pending. It fails on an
        error, and when its stream has come to an end. */
    method PeerListenerTask() returns (r: Option<Client.Completion>)
      modifies peerListener
      ensures peerListener.ended == old(peerListener.ended)
      ensures old(peerListener.wire) == [] ==> r == if peerListener.ended then Some(Client.Failed) else None
      ensures old(peerListener.wire) != [] ==>
        && peerListener.wire == old(peerListener.wire)[1..]
        && r == Some(match old(peerListener.wire)[0] case Changes(changes) => Client.Discovered(changes) case DataLoss => Client.Failed)
    {
      var message := peerListener.NextMessage();
      match message
      case None => r := if peerListener.ended then Some(Client.Failed) else None;
      case Some(Changes(changes)) => r := Some(Client.Discovered(changes));
      case Some(DataLoss) => r := Some(Client.Failed);
    }

    /** The server has let go of the channel and nothing is buffered in it. */
    ghost predicate Over(listener: SignalChannel)
      reads listener
    {
      !listener.senderAlive && listener.chan.fwd == |listener.chan.log|
    }

    /** The offer listener task and the answer listener task: they skip empty messages, and fail
        when the server has let go of the channel and all that it accepted was read. */
    method ListenerTask(side: Side) returns (r: Option<Client.Completion>)
      requires offerListener.Valid() && answerListener.Valid()
      modifies offerListener, answerListener
      ensures var listener := if side == OfferSide then offerListener else answerListener;
        var c := old(listener.chan);
        var i := NextSignal(c.log, c.read, c.fwd);
        && listener.Valid() && listener.senderAlive == old(listener.senderAlive)
        && (i < c.fwd ==> r == Some(Client.Received(c.log[i].value, i)) && listener.chan == c.(read := i + 1))
        && (i == c.fwd ==> listener.chan == c.(read := c.fwd) && r == if Over(listener) then Some(Client.Failed) else None)
    {
      var listener := if side == OfferSide then offerListener else answerListener;
      var next := listener.NextMessage();
      match next
      case Arrival(x, at) => r := Some(Client.Received(x, at));
      case Ended => r := Some(Client.Failed);
      case Dry => r := None;
    }

    /** A discovery request. Others may be handled before its reply arrives. */
    method RequestPeers(reachable: bool) returns (reply: Reply<set<Id>>)
      requires server.Valid()
      ensures reply == if reachable then Ok(server.Abs().peers.Keys - {localId}) else Err(Lost)
    {
      if !reachable {
        return Err(Lost);
      }
      var listed := server.PeerDiscover(Some(localId));
      assert listed.Ok?;
      assert Elements(listed.value) == server.Abs().peers.Keys - {localId};
      reply := Ok(Elements(listed.value));
    }

    /** Overwrites the discovered peers by the next reply to a discovery request. */
    method Synchronise(replies: seq<Reply<set<Id>>>, k: nat) returns (r: Reply<()>)
      requires k <= |replies|
      modifies this`discoveredPeers
      ensures k == |replies| ==> r == Err(Lost) && discoveredPeers == old(discoveredPeers)
      ensures k < |replies| && replies[k].Err? ==> r == Err(replies[k].code) && discoveredPeers == old(discoveredPeers)
      ensures k < |replies| && replies[k].Ok? ==> r == Ok(()) && discoveredPeers == replies[k].value
    {
      if k == |replies| {
        return Err(Lost);
      }
      if replies[k].Err? {
        return Err(replies[k].code);
      }
      discoveredPeers := replies[k].value;
      r := Ok(());
    }

    /** The loop over peer changes. */
    method ApplyChanges(changes: seq<Change>, replies: seq<Reply<set<Id>>>) returns (r: Reply<()>)
      modifies this`discoveredPeers
      ensures (discoveredPeers, r) == Client.ApplyAll(old(discoveredPeers), changes, replies)
      ensures StepContract.LoopEnds(old(discoveredPeers), changes, replies, discoveredPeers, r)
    {
      StepContract.ApplyAllEnds(discoveredPeers, changes, replies);
      var k := 0;
      assert replies[0..] == replies;
      for i := 0 to |changes|
        invariant k <= |replies|
        invariant Client.ApplyAll(old(discoveredPeers), changes, replies) == Client.ApplyAll(discoveredPeers, changes[i..], replies[k..])
      {
        assert changes[i..][1..] == changes[i + 1..];
        assert k < |replies| ==> replies[k..][1..] == replies[k + 1..];
        var change := changes[i];
        if change.Add? {
          if change.id !in discoveredPeers {
            discoveredPeers := discoveredPeers + {change.id};
          } else {
            var synchronised := Synchronise(replies, k);
            if synchronised.Err? {
              return synchronised;
            }
            k := k + 1;
          }
        } else {
          if change.id in discoveredPeers {
            discoveredPeers := discoveredPeers - {change.id};
          } else {
            var synchronised := Synchronise(replies, k);
            if synchronised.Err? {
              return synchronised;
            }
            k := k + 1;
          }
        }
      }
      r := Ok(());
    }

    /** Queues the creation of an offer for each peer that the changes add. */
    method CreateOffers(changes: seq<Change>)
      modifies this`unorderedFuts, this`pushed
      ensures Core() == Client.QueueOffers(old(Core()), AddedIds(changes))
      ensures old(Valid()) ==> Valid()
    {
      for i := 0 to |changes|
        invariant old(Valid()) ==> Valid()
        invariant Client.QueueOffers(Core(), AddedIds(changes[i..])) == Client.QueueOffers(old(Core()), AddedIds(changes))
      {
        assert changes[i..][1..] == changes[i + 1..];
        if changes[i].Add? {
          ghost var ids := AddedIds(changes[i..]);
          assert ids[1..] == AddedIds(changes[i + 1..]);
          Push(Client.CreateOffer(changes[i].id));
        }
      }
    }

    /** Signals the offer or answer that a completed callback made. */
    method SignalOut(side: Side, remoteId: Id, payload: Payload, reachable: bool) returns (r: Reply<()>)
      requires server.Valid() && this !in server.Repr()
      modifies server.Repr()
      ensures server.Valid() && server.Repr() == old(server.Repr()) && Core() == old(Core())
      ensures reachable ==> (server.Abs(), r) == Send(old(server.Abs()), side, remoteId, Signal(localId, payload))
      ensures !reachable ==> server.Abs() == old(server.Abs()) && r == Err(Lost)
    {
      if !reachable {
        return Err(Lost);
      }
      if side == OfferSide {
        r := server.SignalOffer(Some(remoteId), Some(Signal(localId, payload)));
      } else {
        r := server.SignalAnswer(Some(remoteId), Some(Signal(localId, payload)));
      }
    }

    /** The branch for a list of peer changes. */
    method OnPeerChanges(changes: seq<Change>, replies: seq<Reply<set<Id>>>) returns (r: Reply<()>)
      requires Valid()
      modifies this
      ensures Valid() && (Core(), r) == Client.OnPeerChanges(old(Core()), changes, replies)
    {
      Push(Client.PeerListener);
      r := ApplyChanges(changes, replies);
      if r.Err? {
        return;
      }
      if firstDiscovery {
        firstDiscovery := false;
        CreateOffers(changes);
      }
    }

    /** The branch for an answer that was created: a refusal for a failed precondition ends the chain. */
    method OnAnswerCreated(remoteId: Id, answer: Payload, reachable: bool) returns (r: Reply<()>)
      requires Valid() && server.Valid() && this !in server.Repr()
      modifies this, server.Repr()
      ensures Valid() && server.Valid()
      ensures var (h, sent) := if reachable then Send(old(server.Abs()), AnswerSide, remoteId, Signal(localId, answer))
                               else (old(server.Abs()), Err(Lost));
        server.Abs() == h && r == Client.Forgive(sent)
        && Core() == if sent.Ok? then Client.Queue(old(Core()), Client.RemoteCplt(remoteId)) else old(Core())
    {
      hide Send, Client.Queue, Signalling.Valid;
      r := SignalOut(AnswerSide, remoteId, answer, reachable);
      if r == Err(FailedPrecondition) {
        return Ok(());
      }
      if r.Err? {
        return;
      }
      Push(Client.RemoteCplt(remoteId));
    }

    /** The branch for an offer or answer that a listener received. */
    method OnReceived(side: Side, x: Signal, at: nat)
      requires Valid()
      modifies this`unorderedFuts, this`pushed
      ensures Valid() && Core() == Client.OnReceived(old(Core()), side, x, at)
    {
      Push(Client.Listener(side));
      Push(if side == OfferSide then Client.ReceiveOffer(x.sender, x.payload, at) else Client.ReceiveAnswer(x.sender, x.payload, at));
    }

    /** The branches that send something. */
    method HandleSignalling(t: Client.Task, r: Client.Completion, ghost replies: seq<Reply<set<Id>>>, reachable: bool) returns (result: Reply<()>)
      requires Valid() && server.Valid() && this !in server.Repr()
      requires Client.Fits(t, r) && !r.Failed? && (t.CreateOffer? || t.ReceiveOffer?)
      modifies this, server.Repr()
      ensures Valid() && server.Valid()
      ensures var (h, sent) := StepContract.Signalled(old(server.Abs()), localId, t, r, reachable);
        server.Abs() == h && (Core(), result) == Client.Handle(old(Core()), t, r, replies, sent)
    {
      if t.CreateOffer? {
        result := SignalOut(OfferSide, t.remote, r.offer, reachable);
        if result == Err(FailedPrecondition) {
          return Ok(());
        }
      } else {
        result := OnAnswerCreated(t.remote, r.answer, reachable);
      }
    }

    /** The branches that only queue tasks. */
    method HandleLocally(t: Client.Task, r: Client.Completion)
      requires Valid() && Client.Fits(t, r) && !r.Failed? && !t.CreateOffer? && !t.ReceiveOffer? && !t.PeerListener?
      modifies this
      ensures Valid()
      ensures forall replies, sent :: Client.Handle(old(Core()), t, r, replies, sent) == (Core(), Ok(()))
    {
      match t
      case Listener(side) => OnReceived(side, r.from, r.at);
      case ReceiveAnswer(remoteId, _, _) => Push(Client.LocalCplt(remoteId));
      case LocalCplt(_) =>
      case RemoteCplt(_) =>
    }

    method Handle(t: Client.Task, r: Client.Completion, replies: seq<Reply<set<Id>>>, reachable: bool) returns (result: Reply<()>)
      requires Valid() && server.Valid() && this !in server.Repr() && Client.Fits(t, r) && !r.Failed?
      modifies this, server.Repr()
      ensures Valid() && server.Valid()
      ensures var (h, sent) := StepContract.Signalled(old(server.Abs()), localId, t, r, reachable);
        server.Abs() == h && (Core(), result) == Client.Handle(old(Core()), t, r, replies, sent)
    {
      hide Send, Client.OnPeerChanges, Client.OnReceived, Client.Queue, Signalling.Valid;
      if t.PeerListener? {
        result := OnPeerChanges(r.changes, replies);
      } else if t.CreateOffer? || t.ReceiveOffer? {
        result := HandleSignalling(t, r, replies, reachable);
      } else {
        HandleLocally(t, r);
        result := Ok(());
      }
    }

    /** One step: task `n` has resolved to `r`. The discovery requests that this calls for are answered
        by `replies`, and a signalling request fails if the server is not reachable. */
    method Step(n: nat, r: Client.Completion, replies: seq<Reply<set<Id>>>, reachable: bool) returns (result: Reply<()>)
      requires Valid() && server.Valid() && this !in server.Repr()
      requires n in unorderedFuts && Client.Fits(unorderedFuts[n], r)
      modifies this, server.Repr()
      ensures Valid() && server.Valid()
      ensures var (h, sent) := StepContract.Signalled(old(server.Abs()), localId, old(unorderedFuts)[n], r, reachable);
        && server.Abs() == h && (Core(), result) == Client.Step(old(Core()), n, r, replies, sent)
        && StepContract.Transmits(old(server.Abs()), server.Abs(), localId, old(unorderedFuts)[n], r, reachable, sent)
        && StepContract.Outcome(old(Core()), n, r, replies, sent, Core(), result)
    {
      hide Client.Handle, StepContract.Transmits, StepContract.Outcome, Signalling.Valid;
      ghost var c := Core();
      var t := unorderedFuts[n];
      StepContract.SignalledTransmits(server.Abs(), localId, t, r, reachable);
      StepContract.StepOutcome(c, n, r, replies, StepContract.Signalled(server.Abs(), localId, t, r, reachable).1);
      unorderedFuts := unorderedFuts - {n};
      if r.Failed? {
        return Err(Lost);
      }
      result := Handle(t, r, replies, reachable);
    }

    /** Closing tears the peer down. */
    method Close(reachable: bool) returns (r: Reply<()>)
      requires server.Valid()
      modifies server.Repr()
      ensures server.Valid()
      ensures var h := old(server.Abs());
        if reachable then
          && server.Abs() == h.(peers := h.peers - {localId}, log := h.log + [Remove(localId)])
          && r == if localId in h.peers then Ok(()) else Err(FailedPrecondition)
        else server.Abs() == h && r == Err(Lost)
    {
      if !reachable {
        return Err(Lost);
      }
      r := server.Teardown(Some(localId));
    }
  }
}
