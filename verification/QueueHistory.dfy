/** The bounded channels over whole runs: first in, first out, and never replaced. */
module QueueHistory {
  import opened Vocabulary
  import opened Channels
  import opened Server
  import opened System
  import opened Registry
  import opened Discovery
  import Convergence

  /** A channel only accepts more, forwards more and is read further; once closed it stays closed. */
  predicate Grows(ch: Chan, ch': Chan) {
    && ch.log <= ch'.log && ch.fwd <= ch'.fwd && ch.read <= ch'.read && (ch'.alive ==> ch.alive)
  }

  predicate ChansGrow(h: Hub, h': Hub) {
    forall key :: key in h.chans ==> key in h'.chans && Grows(h.chans[key], h'.chans[key])
  }

  lemma OpenGrows(h: Hub, side: Side, id: Id)
    requires HubInv(h)
    ensures ChansGrow(h, OpenListener(h, side, id).0)
  {
  }

  lemma EventGrows(s: State, e: Event)
    requires HubInv(s.hub) && Enabled(s, e)
    ensures ChansGrow(s.hub, Apply(s, e).hub)
  {
    if AtClient(e) {
      LocalKeepsHub(s, e);
    } else if e.StepCreateOffer? || e.StepReceiveOffer? || e.StepListener? {
      SignallingGrows(s, e);
    } else {
      match e
      case Advertise => AdvertiseKeeps(s.hub);
      case Open(c, side) => OpenGrows(s.hub, side, c);
      case Teardown(id) => TeardownKeeps(s.hub, id);
      case Forward(key) =>
      case Drop(key) =>
    }
  }

  lemma SentGrows(h: Hub, h': Hub, side: Side, r: Id, x: Signal)
    requires h' == h || h' == Send(h, side, r, x).0
    ensures ChansGrow(h, h')
  {
  }

  lemma ListenerGrows(s: State, c: Id, n: nat)
    requires Enabled(s, StepListener(c, n))
    ensures ChansGrow(s.hub, DoStepListener(s, c, n).hub)
  {
    ListenerHub(s, c, n);
    hide DoStepListener;
  }

  lemma SignallingGrows(s: State, e: Event)
    requires HubInv(s.hub) && Enabled(s, e) && (e.StepCreateOffer? || e.StepReceiveOffer? || e.StepListener?)
    ensures ChansGrow(s.hub, Apply(s, e).hub)
  {
    hide HubInv, Send, ChansGrow;
    match e
    case StepCreateOffer(c, n, offer) =>
      CreateOfferHub(s, c, n, offer);
      SentGrows(s.hub, Apply(s, e).hub, OfferSide, TaskOf(s, c, n).remote, Signal(c, offer));
    case StepReceiveOffer(c, n, answer) =>
      ReceiveOfferHub(s, c, n, answer);
      SentGrows(s.hub, Apply(s, e).hub, AnswerSide, TaskOf(s, c, n).remote, Signal(c, answer));
    case StepListener(c, n) => ListenerGrows(s, c, n);
  }

  /** Every peer gets one offer and one answer channel ever: once opened, a channel is never replaced
      and never forgets what it accepted. */
  lemma {:induction false} ChannelGrows(ss: seq<State>, es: seq<Event>, i: nat, j: nat, key: Key)
    requires IsRun(ss, es) && i <= j < |ss| && key in ss[i].hub.chans
    ensures key in ss[j].hub.chans && Grows(ss[i].hub.chans[key], ss[j].hub.chans[key])
    decreases j
  {
    hide Enabled, Apply;
    if i < j {
      ChannelGrows(ss, es, i, j - 1, key);
      Convergence.DiscoveryAlways(ss, es, j - 1);
      EventGrows(ss[j - 1], es[j - 1]);
    }
  }

  /** In every state of every run, what a channel accepted is what its listener has read followed by
      what still waits, in order, and at most 16 messages, the initial empty one included, are
      buffered at the server. */
  lemma ChannelsAreFifo(ss: seq<State>, es: seq<Event>, i: nat, key: Key)
    requires IsRun(ss, es) && i < |ss| && key in ss[i].hub.chans
    ensures var ch := ss[i].hub.chans[key];
      && ch.read <= ch.fwd <= |ch.log| && Accepted(ch) == Handed(ch) + Waiting(ch)
      && |ch.log| - ch.fwd <= 16 && |ch.log| > 0 && ch.log[0] == None
  {
    Convergence.DiscoveryAlways(ss, es, i);
    FifoRefinement(ss[i].hub.chans[key]);
  }

  /** What a listener has read stays read, in the same order. */
  lemma HandedInOrder(ss: seq<State>, es: seq<Event>, i: nat, j: nat, key: Key)
    requires IsRun(ss, es) && i <= j < |ss| && key in ss[i].hub.chans
    ensures key in ss[j].hub.chans
    ensures var ch, ch' := ss[i].hub.chans[key], ss[j].hub.chans[key];
      ch.read <= |ch.log| && ch'.read <= |ch'.log| && Handed(ch) <= Handed(ch') && Accepted(ch) <= Accepted(ch')
  {
    ChannelGrows(ss, es, i, j, key);
    Convergence.DiscoveryAlways(ss, es, i);
    Convergence.DiscoveryAlways(ss, es, j);
    var ch, ch' := ss[i].hub.chans[key], ss[j].hub.chans[key];
    SignalsPrefix(ch.log[..ch.read], ch'.log[..ch'.read]);
    SignalsPrefix(ch.log, ch'.log);
  }

  lemma SignalsPrefix(a: seq<Option<Signal>>, b: seq<Option<Signal>>)
    requires a <= b
    ensures Signals(a) <= Signals(b)
  {
  }
}
