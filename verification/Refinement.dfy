/** The events of the system are the steps of the clients: what a client does in one `step`, sending
    included, is what the system model does in one event. */
module Refinement {
  import opened Vocabulary
  import opened Channels
  import opened Server
  import opened Broadcast
  import opened System
  import opened Registry
  import Client
  import StepContract
  import ConnectionMap

  /** Between the two states, client `c` has taken the step in which task `n` resolved to `r`, and the
      server is as that step left it. */
  ghost predicate IsStep(s: State, s': State, c: Id, n: nat, r: Client.Completion, h': Hub)
    requires Has(s, c, n) && Client.Fits(TaskOf(s, c, n), r)
  {
    var (h, sent) := StepContract.Signalled(s.hub, c, TaskOf(s, c, n), r, true);
    var (core, result) := Client.Step(s.nodes[c].core, n, r, [], sent);
    && h' == h && c in s'.nodes && s'.nodes == s.nodes[c := s'.nodes[c]] && s'.streams == s.streams
    && s'.nodes[c].core == core && s'.nodes[c].phase == (if result.Ok? then Running else Stopped)
  }

  /** The step of a client whose callback has failed, which is its last one. */
  ghost predicate IsFailedStep(s: State, s': State, c: Id, n: nat)
    requires Has(s, c, n)
  {
    && Client.Step(s.nodes[c].core, n, Client.Failed, [], Err(Lost)).1.Err?
    && s'.hub == s.hub && c in s'.nodes && s'.nodes == s.nodes[c := s'.nodes[c]] && s'.nodes[c].phase == Stopped
  }

  lemma OfferEventIsStep(s: State, c: Id, n: nat, offer: Payload)
    requires Enabled(s, StepCreateOffer(c, n, offer))
    ensures var s' := DoStepCreateOffer(s, c, n, offer);
      if TaskOf(s, c, n).remote in s.nodes[c].conns then IsFailedStep(s, s', c, n)
      else IsStep(s, s', c, n, Client.OfferCreated(offer), s'.hub)
  {
    hide Send;
  }

  lemma AnswerEventIsStep(s: State, c: Id, n: nat, answer: Payload)
    requires Enabled(s, StepReceiveOffer(c, n, answer))
    ensures var s' := DoStepReceiveOffer(s, c, n, answer);
      if TaskOf(s, c, n).remote in s.nodes[c].conns then IsFailedStep(s, s', c, n)
      else IsStep(s, s', c, n, Client.AnswerCreated(answer), s'.hub)
  {
    hide Send;
  }

  lemma AppliedEventIsStep(s: State, c: Id, n: nat)
    requires Enabled(s, StepReceiveAnswer(c, n))
    ensures var s' := DoStepReceiveAnswer(s, c, n);
      if !ConnectionMap.Place(s.nodes[c].conns, TaskOf(s, c, n).remote, s.nodes[c].held[n]).1 then IsFailedStep(s, s', c, n)
      else IsStep(s, s', c, n, Client.Resolved, s'.hub)
  {
  }

  lemma CompletionEventIsStep(s: State, c: Id, n: nat)
    requires Enabled(s, StepCplt(c, n))
    ensures IsStep(s, DoStepCplt(s, c, n), c, n, Client.Resolved, DoStepCplt(s, c, n).hub)
  {
  }

  /** A listener step also moves the reading cursor of the client's own channel, past empty messages
      and the signal that it has received. */
  lemma ListenerEventIsStep(s: State, c: Id, n: nat)
    requires Enabled(s, StepListener(c, n))
    ensures var s', key := DoStepListener(s, c, n), Key(TaskOf(s, c, n).side, c);
      var ch := s.hub.chans[key];
      var i := NextSignal(ch.log, ch.read, ch.fwd);
      && i < ch.fwd && ch.log[i].Some?
      && IsStep(s, s', c, n, Client.Received(ch.log[i].value, i), s.hub)
      && s'.hub == s.hub.(chans := s.hub.chans[key := ch.(read := i + 1)])
  {
  }

  /** Each completed task but a peer listener's, whose step may have to wait for a reply: the event is
      the client's step, or its last step when the callback fails on the connection map. */
  lemma EventIsStep(s: State, e: Event)
    requires Enabled(s, e) && (e.StepCreateOffer? || e.StepReceiveOffer? || e.StepReceiveAnswer? || e.StepCplt?)
    ensures IsFailedStep(s, Apply(s, e), e.c, e.n) || exists r: Client.Completion ::
      !r.Failed? && Client.Fits(TaskOf(s, e.c, e.n), r) && IsStep(s, Apply(s, e), e.c, e.n, r, Apply(s, e).hub)
  {
    hide IsStep, IsFailedStep;
    match e
    case StepCreateOffer(c, n, offer) => OfferEventIsStep(s, c, n, offer);
    case StepReceiveOffer(c, n, answer) => AnswerEventIsStep(s, c, n, answer);
    case StepReceiveAnswer(c, n) => AppliedEventIsStep(s, c, n);
    case StepCplt(c, n) => CompletionEventIsStep(s, c, n);
  }

  /** What an event that is a request leaves of the server and of the client that made it. */
  ghost predicate IsRequest(s: State, e: Event, s': State)
    requires Enabled(s, e)
  {
    var h := s.hub;
    match e
    case Advertise =>
      && s'.hub == h.(gen := h.gen + 1, peers := h.peers[h.gen := {}], log := h.log + [Add(h.gen)])
      && s'.nodes == s.nodes[h.gen := NewNode(h.gen)] && s'.streams == s.streams
    case OpenPeer(c, order) =>
      && s'.hub == h && Lists(order, h.peers.Keys - {c})
      && s'.streams == s.streams[c := PeerStream(order, |h.log|, |h.log|, [Changes(Adds(order))], false)]
      && s'.nodes == s.nodes[c := s.nodes[c].(phase := PeerOpen)]
    case Open(c, side) =>
      && s'.streams == s.streams
      && if c !in h.peers || side in h.peers[c] then s'.hub == h && s'.nodes == s.nodes[c := s.nodes[c].(phase := Stopped)]
         else
           && s'.hub == h.(peers := h.peers[c := h.peers[c] + {side}], chans := h.chans[Key(side, c) := Chan([None], 0, 0, true)])
           && c in s'.nodes && s'.nodes == s.nodes[c := s'.nodes[c]]
           && s'.nodes[c].phase == (if side == OfferSide then OfferOpen else Running)
    case Teardown(id) =>
      s'.hub == h.(peers := h.peers - {id}, log := h.log + [Remove(id)]) && s'.nodes == s.nodes && s'.streams == s.streams
    case _ => true
  }

  lemma AdvertiseEventIsRequest(s: State)
    requires HubInv(s.hub) && Enabled(s, Advertise)
    ensures IsRequest(s, Advertise, DoAdvertise(s))
  {
    AdvertiseKeeps(s.hub);
    hide HubInv, Evolves;
  }

  lemma OpenEventIsRequest(s: State, c: Id, side: Side)
    requires Enabled(s, Open(c, side))
    ensures IsRequest(s, Open(c, side), DoOpen(s, c, side))
  {
  }

  lemma TeardownEventIsRequest(s: State, id: Id)
    ensures IsRequest(s, Teardown(id), Apply(s, Teardown(id)))
  {
  }

  /** The events that are requests are those of the server's handlers. */
  lemma EventIsRequest(s: State, e: Event)
    requires HubInv(s.hub) && Enabled(s, e) && (e.Advertise? || e.OpenPeer? || e.Open? || e.Teardown?)
    ensures IsRequest(s, e, Apply(s, e))
  {
    hide HubInv, IsRequest, DoAdvertise, DoOpen, DoOpenPeer, Evict;
    match e
    case Advertise => AdvertiseEventIsRequest(s);
    case Open(c, side) => OpenEventIsRequest(s, c, side);
    case Teardown(id) => TeardownEventIsRequest(s, id);
    case OpenPeer(c, order) => OpenPeerEventIsRequest(s, c, order);
  }

  lemma OpenPeerEventIsRequest(s: State, c: Id, order: seq<Id>)
    requires Enabled(s, OpenPeer(c, order))
    ensures IsRequest(s, OpenPeer(c, order), DoOpenPeer(s, c, order))
  {
  }

  /** Departures are free: in any state any ID can be torn down, any client that goes on can stop, and
      any receiver that is alive can be dropped; and a receiver that is dropped is then gone. */
  lemma DeparturesAreFree(s: State, id: Id, key: Key)
    ensures Enabled(s, Teardown(id))
    ensures id in s.nodes && s.nodes[id].phase != Stopped ==>
      Enabled(s, Stop(id)) && Apply(s, Stop(id)) == s.(nodes := s.nodes[id := s.nodes[id].(phase := Stopped)])
    ensures key in s.hub.chans && s.hub.chans[key].alive ==>
      && Enabled(s, Drop(key))
      && Apply(s, Drop(key)) == s.(hub := s.hub.(chans := s.hub.chans[key := s.hub.chans[key].(alive := false)]))
      && (key.id in s.hub.peers && key.side in s.hub.peers[key.id] ==> Judge(Apply(s, Drop(key)).hub, key.side, key.id) == Gone)
  {
  }
}
