/** Every running client of the system keeps listening on all three streams. */
module Liveness {
  import opened Vocabulary
  import opened Channels
  import opened Broadcast
  import opened Server
  import opened System
  import opened Registry
  import opened Discovery
  import opened Chains
  import opened LocalSteps
  import Convergence
  import Client
  import ConnectionMap

  ghost predicate Listening(s: State) {
    forall c :: c in s.nodes && s.nodes[c].phase == Running ==> OneOfEach(s.nodes[c].core)
  }

  lemma SameTasksListen(core: Client.Core, core': Client.Core)
    requires OneOfEach(core) && core'.tasks == core.tasks && core'.next == core.next
    ensures OneOfEach(core')
  {
  }

  lemma FinishListens(core: Client.Core, d: set<Id>, changes: seq<Change>)
    requires OneOfEach(core)
    ensures OneOfEach(Client.FinishDiscovery(core, d, changes))
  {
    HoldersFinish(core, d, changes, Client.PeerListener);
    HoldersFinish(core, d, changes, Client.Listener(OfferSide));
    HoldersFinish(core, d, changes, Client.Listener(AnswerSide));
  }

  lemma DiscoveringListens(node: Node, h: Hub, d: set<Id>, changes: seq<Change>, all: seq<Change>)
    requires OneOfEach(node.core)
    ensures OneOfEach(Discovering(node, h, d, changes, all).core)
  {
    var (d', rest) := Client.RunChanges(d, changes);
    if rest.None? {
      FinishListens(node.core, d', all);
    } else {
      SameTasksListen(node.core, node.core.(discovered := d'));
    }
  }

  lemma HeardListens(node: Node, n: nat, changes: seq<Change>)
    requires OneOfEach(node.core) && n in node.core.tasks && node.core.tasks[n].PeerListener?
    ensures OneOfEach(Heard(node, n, changes).core)
  {
    var done := Client.Done(node.core, n);
    HoldersDone(node.core, n, Client.PeerListener);
    HoldersDone(node.core, n, Client.Listener(OfferSide));
    HoldersDone(node.core, n, Client.Listener(AnswerSide));
    HoldersQueue(done, Client.PeerListener, Client.PeerListener);
    HoldersQueue(done, Client.PeerListener, Client.Listener(OfferSide));
    HoldersQueue(done, Client.PeerListener, Client.Listener(AnswerSide));
  }

  lemma PeerEventListens(node: Node, h: Hub, n: nat, event: PeerEvent)
    requires OneOfEach(node.core) && n in node.core.tasks && node.core.tasks[n].PeerListener?
    ensures OnPeerEvent(node, h, n, event).phase == Stopped || OneOfEach(OnPeerEvent(node, h, n, event).core)
  {
    if event.Changes? {
      HeardListens(node, n, event.list);
      DiscoveringListens(Heard(node, n, event.list), h, node.core.discovered, event.list, event.list);
    }
  }

  lemma ListenerStepListens(s: State, c: Id, n: nat)
    requires Enabled(s, StepListener(c, n)) && OneOfEach(s.nodes[c].core)
    ensures OneOfEach(DoStepListener(s, c, n).nodes[c].core)
  {
    var ch := s.hub.chans[Key(TaskOf(s, c, n).side, c)];
    var i := NextSignal(ch.log, ch.read, ch.fwd);
    StepKeepsListeners(s.nodes[c].core, Input(n, Client.Received(ch.log[i].value, i), [], Ok(())));
  }

  lemma CreateOfferListens(s: State, c: Id, n: nat, offer: Payload)
    requires Enabled(s, StepCreateOffer(c, n, offer)) && OneOfEach(s.nodes[c].core)
    ensures OneOfEach(DoStepCreateOffer(s, c, n, offer).nodes[c].core)
  {
    var sent := Send(s.hub, OfferSide, TaskOf(s, c, n).remote, Signal(c, offer)).1;
    StepKeepsListeners(s.nodes[c].core, Input(n, Client.OfferCreated(offer), [], sent));
  }

  lemma ReceiveOfferListens(s: State, c: Id, n: nat, answer: Payload)
    requires Enabled(s, StepReceiveOffer(c, n, answer)) && OneOfEach(s.nodes[c].core)
    ensures OneOfEach(DoStepReceiveOffer(s, c, n, answer).nodes[c].core)
  {
    var sent := Send(s.hub, AnswerSide, TaskOf(s, c, n).remote, Signal(c, answer)).1;
    StepKeepsListeners(s.nodes[c].core, Input(n, Client.AnswerCreated(answer), [], sent));
  }

  lemma CompletionListens(s: State, e: Event)
    requires Enabled(s, e) && (e.StepReceiveAnswer? || e.StepCplt? || e.Take?) && OneOfEach(s.nodes[e.c].core)
    ensures OneOfEach(Apply(s, e).nodes[e.c].core)
  {
    if !e.Take? {
      StepKeepsListeners(s.nodes[e.c].core, Input(e.n, Client.Resolved, [], Ok(())));
    }
  }

  lemma ChainEventListens(s: State, e: Event)
    requires Enabled(s, e) && ChainEvent(e) && OneOfEach(s.nodes[ActorOf(e).value].core)
    ensures OneOfEach(Apply(s, e).nodes[ActorOf(e).value].core)
  {
    match e
    case StepListener(c, n) => ListenerStepListens(s, c, n);
    case StepCreateOffer(c, n, offer) => CreateOfferListens(s, c, n, offer);
    case StepReceiveOffer(c, n, answer) => ReceiveOfferListens(s, c, n, answer);
    case _ => CompletionListens(s, e);
  }

  lemma OneNodeListens(s: State, s': State, c: Id)
    requires Listening(s) && c in s'.nodes && s'.nodes == s.nodes[c := s'.nodes[c]]
    requires s'.nodes[c].phase == Running ==> OneOfEach(s'.nodes[c].core)
    ensures Listening(s')
  {
  }

  lemma OpenListens(s: State, c: Id, side: Side)
    requires Listening(s) && Enabled(s, Open(c, side))
    ensures Listening(DoOpen(s, c, side))
  {
    hide OneOfEach, Listening;
    NewCoreListens(c);
    OneNodeListens(s, DoOpen(s, c, side), c);
  }

  lemma StartingListens(s: State, e: Event)
    requires Listening(s) && Enabled(s, e) && (e.OpenPeer? || e.Open? || e.PumpPeer? || e.Stop?)
    ensures Listening(Apply(s, e))
  {
    hide OneOfEach;
    match e
    case OpenPeer(c, order) => OneNodeListens(s, DoOpenPeer(s, c, order), c);
    case Open(c, side) => OpenListens(s, c, side);
    case PumpPeer(c) => assert Apply(s, e).nodes == s.nodes;
    case Stop(c) => OneNodeListens(s, Halt(s, c), c);
  }

  lemma DiscoveryStepListens(s: State, e: Event)
    requires Listening(s) && Enabled(s, e) && (e.StepPeer? || e.SyncReply?)
    ensures Listening(Apply(s, e))
  {
    match e
    case StepPeer(c, n) =>
      PeerEventListens(s.nodes[c], s.hub, n, s.streams[c].wire[0]);
      OneNodeListens(s, DoStepPeer(s, c, n), c);
    case SyncReply(c) =>
      var sync := s.nodes[c].sync.value;
      DiscoveringListens(s.nodes[c], s.hub, sync.reply, sync.rest, sync.all);
      OneNodeListens(s, DoSyncReply(s, c), c);
  }

  lemma ActorListens(s: State, e: Event)
    requires Listening(s) && Enabled(s, e) && ChainEvent(e)
    ensures Listening(Apply(s, e))
  {
    hide OneOfEach, Apply;
    ChainEventUndisturbed(s, e);
    ChainEventListens(s, e);
    OneNodeListens(s, Apply(s, e), ActorOf(e).value);
  }

  lemma ListeningKept(s: State, e: Event)
    requires Listening(s) && DiscoveryInv(s) && Enabled(s, e)
    ensures Listening(Apply(s, e))
  {
    hide HubInv, At, OneOfEach;
    if ChainEvent(e) {
      ActorListens(s, e);
    } else if e.Advertise? {
      NewcomerOk(s);
    } else if ActorOf(e).None? {
      EventsOnTheSide(s, e);
    } else if e.StepPeer? || e.SyncReply? {
      DiscoveryStepListens(s, e);
    } else {
      StartingListens(s, e);
    }
  }

  lemma {:induction false} ListeningAlways(ss: seq<State>, es: seq<Event>, i: nat)
    requires System.IsRun(ss, es) && i < |ss|
    ensures Listening(ss[i])
  {
    hide Enabled, Apply, DiscoveryInv, OneOfEach;
    if i > 0 {
      Convergence.DiscoveryAlways(ss, es, i - 1);
      ListeningAlways(ss, es, i - 1);
      ListeningKept(ss[i - 1], es[i - 1]);
    }
  }

  /** A pending listener task of a running client. */
  lemma ListenerOf(s: State, c: Id, t: Client.Task) returns (n: nat)
    requires Listening(s) && c in s.nodes && s.nodes[c].phase == Running && Client.IsListener(t)
    ensures HasTask(s, c, n, t)
  {
    assert OneOfEach(s.nodes[c].core);
    assert |Holders(s.nodes[c].core, t)| == 1 by {
      if t.Listener? {
        assert t == Client.Listener(if t.side == OfferSide then OfferSide else AnswerSide);
      }
    }
    assert Holders(s.nodes[c].core, t) != {};
    n :| n in Holders(s.nodes[c].core, t);
  }
}
