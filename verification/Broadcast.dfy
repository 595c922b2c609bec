/** The overflowing broadcast ring of peer changes and the peer listener streams fed from it. */
module Broadcast {
  import opened Vocabulary

  datatype PeerEvent = Changes(list: seq<Change>) | DataLoss

  /** A peer listener stream: the initial list it was opened with (`order`), the length of the
      broadcast log at its subscription (`start`), the next broadcast it will take (`pos`), the
      events on their way to the client (`wire`), and whether it has ended with an error. */
  datatype PeerStream = PeerStream(order: seq<Id>, start: nat, pos: nat, wire: seq<PeerEvent>, ended: bool)

  /** The position of the oldest broadcast that the ring still holds. */
  function Oldest(log: seq<Change>): nat {
    if |log| > CAPACITY then |log| - CAPACITY else 0
  }

  function NewStream(order: seq<Id>, log: seq<Change>): PeerStream {
    PeerStream(order, |log|, |log|, [Changes(Adds(order))], false)
  }

  /** One turn of the stream's loop: take the next broadcast, or end with a data-loss error if
      that broadcast was evicted from the ring. */
  function Pump(st: PeerStream, log: seq<Change>): PeerStream
    requires !st.ended && st.pos < |log|
  {
    if st.pos < Oldest(log) then st.(wire := st.wire + [DataLoss], ended := true)
    else st.(wire := st.wire + [Changes([log[st.pos]])], pos := st.pos + 1)
  }

  /** One message per broadcast. */
  function Singles(changes: seq<Change>): seq<PeerEvent> {
    seq(|changes|, i requires 0 <= i < |changes| => Changes([changes[i]]))
  }

  datatype Received = Message(change: Change) | Overflowed | Pending

  /** The ring: the last messages broadcast, the older ones having been evicted. */
  class BroadcastRing {
    var head: nat
    var buf: seq<Change>
    ghost var log: seq<Change>  // everything broadcast so far

    ghost predicate Valid()
      reads this
    {
      head == Oldest(log) && buf == log[head..]
    }

    constructor ()
      ensures Valid() && log == []
    {
      head, buf, log := 0, [], [];
    }

    /** Broadcasting never fails: the server keeps one receiver, and overflow is enabled. */
    method TryBroadcast(change: Change)
      requires Valid()
      modifies this
      ensures Valid() && log == old(log) + [change]
      ensures |log| <= 16 ==> buf == log
      ensures |log| > 16 ==> buf == log[|log| - 16..]
    {
      if |buf| == CAPACITY {
        buf, head := buf[1..], head + 1;
      }
      buf := buf + [change];
      log := log + [change];
    }

    /** A new receiver starts with no messages. */
    method NewReceiver() returns (pos: nat)
      requires Valid()
      ensures pos == |log|
    {
      pos := head + |buf|;
    }

    method RecvDirect(pos: nat) returns (r: Received)
      requires Valid()
      ensures r == if pos >= |log| then Pending else if pos + 16 < |log| then Overflowed else Message(log[pos])
    {
      if pos >= head + |buf| {
        r := Pending;
      } else if pos < head {
        r := Overflowed;
      } else {
        r := Message(buf[pos - head]);
      }
    }
  }

  /** The server side of one peer listener, and the messages it has yielded so far. */
  class PeerListenerStream {
    const ring: BroadcastRing
    var pos: nat
    var wire: seq<PeerEvent>
    var ended: bool
    ghost const order: seq<Id>
    ghost const start: nat

    ghost function Abs(): PeerStream
      reads this
    {
      PeerStream(order, start, pos, wire, ended)
    }

    /** Opening yields the initial changes first. */
    constructor (ring: BroadcastRing, order: seq<Id>)
      requires ring.Valid()
      ensures this.ring == ring && Abs() == NewStream(order, ring.log)
    {
      var position := ring.NewReceiver();
      this.ring, this.order, this.start := ring, order, |ring.log|;
      pos := position;
      wire := [Changes(Adds(order))];
      ended := false;
    }

    /** The stream takes one more message from the ring, if there is one, and yields it. */
    method Turn()
      requires ring.Valid() && !ended
      modifies this
      ensures Abs() == if old(pos) < |ring.log| then Pump(old(Abs()), ring.log) else old(Abs())
      ensures old(pos) >= |ring.log| ==> Abs() == old(Abs())
      ensures old(pos) + 16 < |ring.log| ==> Abs() == old(Abs()).(wire := old(wire) + [DataLoss], ended := true)
      ensures old(pos) < |ring.log| <= old(pos) + 16 ==>
        Abs() == old(Abs()).(wire := old(wire) + [Changes([ring.log[old(pos)]])], pos := old(pos) + 1)
    {
      var received := ring.RecvDirect(pos);
      match received
      case Message(change) => wire, pos := wire + [Changes([change])], pos + 1;
      case Overflowed => wire, ended := wire + [DataLoss], true;
      case Pending =>
    }

    /** The client reads the oldest message on its stream; None while there is none. */
    method NextMessage() returns (r: Option<PeerEvent>)
      modifies this
      ensures if old(wire) == [] then r == None && Abs() == old(Abs())
              else r == Some(old(wire)[0]) && Abs() == old(Abs()).(wire := old(wire)[1..])
    {
      if wire == [] {
        return None;
      }
      r := Some(wire[0]);
      wire := wire[1..];
    }
  }
}
