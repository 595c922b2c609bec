/** The registry, the broadcast log and the identities: what every event keeps. */
module Registry {
  import opened Vocabulary
  import opened Channels
  import opened Server
  import opened System
  import Client

  /** The set that a listener reaches by applying a list of changes to a set of peers. */
  ghost function Fold(base: set<Id>, log: seq<Change>): set<Id> {
    if log == [] then base
    else Client.ApplyChange(Fold(base, log[..|log| - 1]), log[|log| - 1])
  }

  lemma FoldSnoc(base: set<Id>, log: seq<Change>, change: Change)
    ensures Fold(base, log + [change]) == Client.ApplyChange(Fold(base, log), change)
  {
  }

  lemma {:induction false} FoldConcat(base: set<Id>, a: seq<Change>, b: seq<Change>)
    ensures Fold(base, a + b) == Fold(Fold(base, a), b)
    decreases |b|
  {
    if b == [] {
      assert a + b == a;
    } else {
      assert a + b == a + b[..|b| - 1] + [b[|b| - 1]];
      FoldSnoc(base, a + b[..|b| - 1], b[|b| - 1]);
      FoldConcat(base, a, b[..|b| - 1]);
    }
  }

  /** Registry and log move together: at most one broadcast at a time, and the registered IDs
      change exactly as it says. */
  ghost predicate Evolves(h: Hub, h': Hub) {
    || (h'.log == h.log && h'.peers.Keys == h.peers.Keys)
    || (|h'.log| == |h.log| + 1 && h'.log[..|h.log|] == h.log
        && h'.peers.Keys == Client.ApplyChange(h.peers.Keys, h'.log[|h.log|]))
  }

  ghost predicate HubInv(h: Hub) {
    && h.gen <= ID_SPACE
    && h.peers.Keys == Fold({}, h.log)
    && AddsInOrder(h.log, h.gen)
    && ChannelsMatch(h)
  }

  /** Every registered ID was generated, and a listener's channel exists exactly if its side of
      the registry entry is set. */
  ghost predicate ChannelsMatch(h: Hub) {
    && (forall id :: id in h.peers ==> id < h.gen)
    && (forall key :: key in h.chans ==> key.id < h.gen && ChanOk(h.chans[key]))
    && (forall id, side :: id in h.peers ==> (side in h.peers[id] <==> Key(side, id) in h.chans))
  }

  /** The IDs ever added are 0, 1, 2, ... below `gen`, each added once and in this order. */
  ghost predicate AddsInOrder(log: seq<Change>, gen: nat) {
    && (forall i :: 0 <= i < |log| && log[i].Add? ==> log[i].id < gen)
    && (forall i, j :: 0 <= i < j < |log| && log[i].Add? && log[j].Add? ==> log[i].id < log[j].id)
    && (forall id: nat :: id < gen ==> Add(id) in log)
  }

  lemma EvolvesKeepsFold(h: Hub, h': Hub)
    requires Evolves(h, h') && h.peers.Keys == Fold({}, h.log)
    ensures h'.peers.Keys == Fold({}, h'.log)
  {
    if h'.log != h.log {
      assert h'.log == h.log + [h'.log[|h.log|]];
      FoldSnoc({}, h.log, h'.log[|h.log|]);
    }
  }

  lemma AddsExtend(log: seq<Change>, gen: nat, change: Change)
    requires AddsInOrder(log, gen) && (change.Add? ==> change.id == gen)
    ensures AddsInOrder(log + [change], gen + if change.Add? then 1 else 0)
  {
    forall id: nat | id < gen + (if change.Add? then 1 else 0) ensures Add(id) in log + [change] {
      if id < gen {
        assert Add(id) in log;
      } else {
        assert (log + [change])[|log|] == Add(id);
      }
    }
  }

  lemma AdvertiseMatches(h: Hub)
    requires ChannelsMatch(h) && h.gen < ID_SPACE
    ensures var (h', r) := Admit(h); ChannelsMatch(h') && Evolves(h, h') && r == Ok(h.gen) && h'.gen == h.gen + 1
  {
    assert h.gen !in h.peers;
    var h' := Admit(h).0;
    assert h'.log[..|h.log|] == h.log && h'.peers.Keys == h.peers.Keys + {h.gen};
    assert forall side :: Key(side, h.gen) !in h.chans;
  }

  lemma AdvertiseKeeps(h: Hub)
    requires HubInv(h) && h.gen < ID_SPACE
    ensures var (h', r) := Admit(h); HubInv(h') && Evolves(h, h') && r == Ok(h.gen) && h'.gen == h.gen + 1
  {
    AdvertiseMatches(h);
    AddsExtend(h.log, h.gen, Add(h.gen));
    EvolvesKeepsFold(h, Admit(h).0);
  }

  lemma TeardownKeeps(h: Hub, id: Id)
    requires HubInv(h)
    ensures var h' := Evict(h, id).0; HubInv(h') && Evolves(h, h') && h'.gen == h.gen && h'.chans == h.chans
  {
    var h' := Evict(h, id).0;
    assert h'.log[..|h.log|] == h.log;
    EvolvesKeepsFold(h, h');
    AddsExtend(h.log, h.gen, Remove(id));
  }

  lemma SendKeeps(h: Hub, side: Side, target: Id, x: Signal)
    requires HubInv(h)
    ensures var h' := Send(h, side, target, x).0; HubInv(h') && Evolves(h, h') && h'.gen == h.gen
  {
    TeardownKeeps(h, target);
  }

  lemma OpenKeeps(h: Hub, side: Side, id: Id)
    requires HubInv(h)
    ensures var h' := OpenListener(h, side, id).0; HubInv(h') && Evolves(h, h') && h'.gen == h.gen
  {
  }

  lemma ChanKept(h: Hub, key: Key, ch: Chan)
    requires HubInv(h) && key in h.chans && ChanOk(ch)
    ensures var h' := h.(chans := h.chans[key := ch]); HubInv(h') && Evolves(h, h')
  {
  }

  lemma CreateOfferHub(s: State, c: Id, n: nat, offer: Payload)
    requires Enabled(s, StepCreateOffer(c, n, offer))
    ensures var h' := DoStepCreateOffer(s, c, n, offer).hub;
      h' == s.hub || h' == Send(s.hub, OfferSide, TaskOf(s, c, n).remote, Signal(c, offer)).0
  {
  }

  lemma ReceiveOfferHub(s: State, c: Id, n: nat, answer: Payload)
    requires Enabled(s, StepReceiveOffer(c, n, answer))
    ensures var h' := DoStepReceiveOffer(s, c, n, answer).hub;
      h' == s.hub || h' == Send(s.hub, AnswerSide, TaskOf(s, c, n).remote, Signal(c, answer)).0
  {
  }

  lemma ListenerHub(s: State, c: Id, n: nat)
    requires Enabled(s, StepListener(c, n))
    ensures var key := Key(TaskOf(s, c, n).side, c);
      var ch := s.hub.chans[key];
      DoStepListener(s, c, n).hub == SetChan(s, key, ch.(read := NextSignal(ch.log, ch.read, ch.fwd) + 1)).hub
  {
  }

  /** The events that act on a client alone. */
  predicate AtClient(e: Event) {
    e.OpenPeer? || e.PumpPeer? || e.StepPeer? || e.SyncReply? || e.Take? || e.StepReceiveAnswer? || e.StepCplt? || e.Stop?
  }

  lemma LocalKeepsHub(s: State, e: Event)
    requires Enabled(s, e) && AtClient(e)
    ensures Apply(s, e).hub == s.hub
  {
  }

  ghost predicate HubStep(h: Hub, h': Hub, e: Event) {
    HubInv(h') && Evolves(h, h') && h'.gen == h.gen + if e.Advertise? then 1 else 0
  }

  lemma SentOrNot(h: Hub, h': Hub, side: Side, r: Id, x: Signal)
    requires HubInv(h) && (h' == h || h' == Send(h, side, r, x).0)
    ensures HubInv(h') && Evolves(h, h') && h'.gen == h.gen
  {
    SendKeeps(h, side, r, x);
  }

  lemma ReadKeeps(h: Hub, key: Key, i: nat)
    requires HubInv(h) && key in h.chans && h.chans[key].read <= i < h.chans[key].fwd
    ensures var h' := h.(chans := h.chans[key := h.chans[key].(read := i + 1)]); HubInv(h') && Evolves(h, h')
  {
  }

  lemma ListenerKeepsHub(s: State, c: Id, n: nat)
    requires HubInv(s.hub) && Enabled(s, StepListener(c, n))
    ensures var h' := DoStepListener(s, c, n).hub; HubInv(h') && Evolves(s.hub, h') && h'.gen == s.hub.gen
  {
    hide HubInv, Evolves;
    var key := Key(TaskOf(s, c, n).side, c);
    var ch := s.hub.chans[key];
    ListenerHub(s, c, n);
    ReadKeeps(s.hub, key, NextSignal(ch.log, ch.read, ch.fwd));
  }

  lemma SignallingKeepsHub(s: State, e: Event)
    requires HubInv(s.hub) && Enabled(s, e) && (e.StepCreateOffer? || e.StepReceiveOffer? || e.StepListener?)
    ensures HubStep(s.hub, Apply(s, e).hub, e)
  {
    hide HubInv, Evolves, Send, ChanOk;
    match e
    case StepCreateOffer(c, n, offer) =>
      CreateOfferHub(s, c, n, offer);
      SentOrNot(s.hub, Apply(s, e).hub, OfferSide, TaskOf(s, c, n).remote, Signal(c, offer));
    case StepReceiveOffer(c, n, answer) =>
      ReceiveOfferHub(s, c, n, answer);
      SentOrNot(s.hub, Apply(s, e).hub, AnswerSide, TaskOf(s, c, n).remote, Signal(c, answer));
    case StepListener(c, n) => ListenerKeepsHub(s, c, n);
  }

  lemma HubKept(s: State, e: Event)
    requires HubInv(s.hub) && Enabled(s, e)
    ensures HubStep(s.hub, Apply(s, e).hub, e)
  {
    if AtClient(e) {
      LocalKeepsHub(s, e);
    } else if e.StepCreateOffer? || e.StepReceiveOffer? || e.StepListener? {
      SignallingKeepsHub(s, e);
    } else {
      match e
      case Advertise => AdvertiseKeeps(s.hub);
      case Open(c, side) => OpenKeeps(s.hub, side, c);
      case Teardown(id) => TeardownKeeps(s.hub, id);
      case Forward(key) => ChanKept(s.hub, key, s.hub.chans[key].(fwd := s.hub.chans[key].fwd + 1));
      case Drop(key) => ChanKept(s.hub, key, s.hub.chans[key].(alive := false));
    }
  }
}
