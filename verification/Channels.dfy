/** The bounded offer/answer channels, from the server's sender to the client's listener task. */
module Channels {
  import opened Vocabulary

  /** A channel as the full log of everything it ever accepted, with two cursors:
      `log[fwd..]` waits in the bounded buffer, `log[read..fwd]` has left the buffer on the
      response stream, and `log[..read]` was consumed by the client. `alive` says whether the
      receiving half still exists. */
  datatype Chan = Chan(log: seq<Option<Signal>>, fwd: nat, read: nat, alive: bool)

  datatype SendResult = Sent | Full | Disconnected

  ghost predicate ChanOk(c: Chan) {
    && c.read <= c.fwd <= |c.log| <= c.fwd + CAPACITY
    && 1 <= |c.log| && c.log[0] == None
    && (forall i :: 1 <= i < |c.log| ==> c.log[i].Some?)
  }

  /** A fresh channel is loaded with one empty message. */
  function NewChan(): Chan {
    Chan([None], 0, 0, true)
  }

  /** How sending on the channel would end. */
  function Room(c: Chan): SendResult {
    if !c.alive then Disconnected
    else if |c.log| - c.fwd >= CAPACITY then Full
    else Sent
  }

  function Push(c: Chan, x: Signal): (Chan, SendResult) {
    (if Room(c) == Sent then c.(log := c.log + [Some(x)]) else c, Room(c))
  }

  /** The index of the first signal in `log[i..hi]`, or `hi` when there is none. */
  function NextSignal(log: seq<Option<Signal>>, i: nat, hi: nat): (r: nat)
    requires i <= hi <= |log|
    ensures i <= r <= hi
    ensures r < hi ==> log[r].Some?
    ensures forall j :: i <= j < r ==> log[j].None?
    decreases hi - i
  {
    if i == hi || log[i].Some? then i else NextSignal(log, i + 1, hi)
  }

  /** The signals in a stretch of a channel's log: what remains once empty messages are skipped. */
  function Signals(log: seq<Option<Signal>>): seq<Signal> {
    if log == [] then []
    else (if log[0].Some? then [log[0].value] else []) + Signals(log[1..])
  }

  function Accepted(c: Chan): seq<Signal> { Signals(c.log) }

  function Handed(c: Chan): seq<Signal> requires c.read <= |c.log| { Signals(c.log[..c.read]) }

  function Waiting(c: Chan): seq<Signal> requires c.read <= |c.log| { Signals(c.log[c.read..]) }

  lemma {:induction false} SignalsConcat(a: seq<Option<Signal>>, b: seq<Option<Signal>>)
    ensures Signals(a + b) == Signals(a) + Signals(b)
  {
    if a == [] {
      assert a + b == b;
    } else {
      assert (a + b)[1..] == a[1..] + b;
      SignalsConcat(a[1..], b);
    }
  }

  /** What the channel accepted is what it handed over followed by what still waits, in order. */
  lemma FifoRefinement(c: Chan)
    requires ChanOk(c)
    ensures Accepted(c) == Handed(c) + Waiting(c)
  {
    assert c.log == c.log[..c.read] + c.log[c.read..];
    SignalsConcat(c.log[..c.read], c.log[c.read..]);
  }

  /** Sending appends to what was accepted exactly when it succeeds; a refusal changes nothing. */
  lemma SendAccepts(c: Chan, x: Signal)
    requires ChanOk(c)
    ensures var (c', r) := Push(c, x);
      && ChanOk(c')
      && Handed(c') == Handed(c)
      && (r == Sent ==> Accepted(c') == Accepted(c) + [x] && Waiting(c') == Waiting(c) + [x])
      && (r != Sent ==> c' == c)
      && (r == Full <==> c.alive && |c.log[c.fwd..]| == 16)
      && (r == Disconnected <==> !c.alive)
  {
    SignalsConcat(c.log, [Some(x)]);
    SignalsConcat(c.log[c.read..], [Some(x)]);
    var (c', r) := Push(c, x);
    if r == Sent {
      assert c'.log[c'.read..] == c.log[c.read..] + [Some(x)];
      assert c'.log[..c'.read] == c.log[..c.read];
    }
  }

  lemma SplitFirst(log: seq<Option<Signal>>, i: nat, hi: nat)
    requires i < hi <= |log|
    ensures log[i..hi][0] == log[i] && log[i..hi][1..] == log[i + 1..hi]
  {
  }

  /** What a listener task finds on its stream. */
  datatype Next = Arrival(signal: Signal, at: nat) | Dry | Ended

  /** A bounded single-producer channel together with the response stream it feeds. */
  class SignalChannel {
    var buf: seq<Option<Signal>>   // accepted, not yet taken by the response stream
    var wire: seq<Option<Signal>>  // taken by the response stream, not yet read by the client
    var receiverAlive: bool
    var senderAlive: bool          // the registry still holds the sending half
    var count: nat                 // how many messages the client has read
    ghost var chan: Chan           // the same channel as one log with cursors

    ghost predicate Valid()
      reads this
    {
      && ChanOk(chan)
      && buf == chan.log[chan.fwd..]
      && wire == chan.log[chan.read..chan.fwd]
      && receiverAlive == chan.alive && count == chan.read
    }

    constructor ()
      ensures Valid() && chan == NewChan() && senderAlive && receiverAlive && buf == [None] && wire == []
    {
      buf, wire, receiverAlive, senderAlive, count := [None], [], true, true, 0;
      chan := NewChan();
    }

    method TrySend(x: Signal) returns (r: SendResult)
      requires Valid()
      modifies this
      ensures Valid()
      ensures (chan, r) == Push(old(chan), x) && senderAlive == old(senderAlive)
      ensures wire == old(wire) && receiverAlive == old(receiverAlive) && count == old(count)
      ensures if !receiverAlive then r == Disconnected && buf == old(buf)
              else if |old(buf)| == 16 then r == Full && buf == old(buf)
              else |old(buf)| < 16 && r == Sent && buf == old(buf) + [Some(x)]
    {
      if !receiverAlive {
        return Disconnected;
      }
      if |buf| >= CAPACITY {
        return Full;
      }
      buf := buf + [Some(x)];
      chan := chan.(log := chan.log + [Some(x)]);
      r := Sent;
    }

    /** The response stream takes the oldest buffered message. */
    method Forward()
      requires Valid() && buf != []
      modifies this
      ensures Valid()
      ensures chan == old(chan).(fwd := old(chan).fwd + 1)
    {
      wire, buf := wire + [buf[0]], buf[1..];
      chan := chan.(fwd := chan.fwd + 1);
    }

    /** The listener task of the client: it skips empty messages until a signal arrives. When the
        stream runs dry it ends if the sending half is gone and nothing is buffered, and otherwise
        stays pending. `at` numbers the message read. */
    method NextMessage() returns (r: Next)
      requires Valid()
      modifies this
      ensures Valid() && buf == old(buf) && senderAlive == old(senderAlive)
      ensures var c := old(chan);
        var i := NextSignal(c.log, c.read, c.fwd);
        if i < c.fwd then r == Arrival(c.log[i].value, i) && chan == c.(read := i + 1)
        else chan == c.(read := c.fwd) && r == if !senderAlive && c.fwd == |c.log| then Ended else Dry
    {
      while wire != []
        invariant Valid() && chan == old(chan).(read := chan.read) && buf == old(buf) && senderAlive == old(senderAlive)
        invariant old(chan).read <= chan.read
        invariant NextSignal(chan.log, old(chan).read, chan.fwd) == NextSignal(chan.log, chan.read, chan.fwd)
        decreases |wire|
      {
        SplitFirst(chan.log, chan.read, chan.fwd);
        var message, at := wire[0], count;
        wire, count := wire[1..], count + 1;
        chan := chan.(read := chan.read + 1);
        if message.Some? {
          return Arrival(message.value, at);
        }
      }
      r := if !senderAlive && buf == [] then Ended else Dry;
    }

    /** The registry lets go of the sending half; what was accepted is still delivered. */
    method DropSender()
      requires Valid()
      modifies this`senderAlive
      ensures Valid() && !senderAlive
    {
      senderAlive := false;
    }

    method Close()
      requires Valid()
      modifies this
      ensures Valid() && chan == old(chan).(alive := false)
    {
      receiverAlive := false;
      chan := chan.(alive := false);
    }
  }
}
