/** The signalling client's state machine: its bag of pending tasks and what `step` does when one
    of them completes. */
module Client {
  import opened Vocabulary

  /** Pending tasks. `at` numbers a received signal within the channel it came from. */
  datatype Task =
    | PeerListener
    | Listener(side: Side)
    | CreateOffer(remote: Id)
    | ReceiveAnswer(remote: Id, payload: Payload, at: nat)
    | LocalCplt(remote: Id)
    | ReceiveOffer(remote: Id, payload: Payload, at: nat)
    | RemoteCplt(remote: Id)

  predicate IsListener(t: Task) {
    t.PeerListener? || t.Listener?
  }

  /** The unordered set of pending tasks maps each task's push number to the task. */
  datatype Core = Core(id: Id, discovered: set<Id>, first: bool, tasks: map<nat, Task>, next: nat)

  /** The client that `start_peer` returns: three listener tasks are queued. */
  function NewCore(id: Id): Core {
    Core(id, {}, true, map[0 := PeerListener, 1 := Listener(OfferSide), 2 := Listener(AnswerSide)], 3)
  }

  function Queue(c: Core, t: Task): Core {
    c.(tasks := c.tasks[c.next := t], next := c.next + 1)
  }

  /** Queues one create-offer task per target, in order. */
  function QueueOffers(c: Core, targets: seq<Id>): (r: Core)
    ensures r == c.(tasks := r.tasks, next := c.next + |targets|)
    ensures forall n :: n in r.tasks <==> n in c.tasks || c.next <= n < r.next
    ensures forall n :: n in r.tasks ==>
      r.tasks[n] == if c.next <= n < r.next then CreateOffer(targets[n - c.next]) else c.tasks[n]
    decreases |targets|
  {
    if targets == [] then c else QueueOffers(Queue(c, CreateOffer(targets[0])), targets[1..])
  }

  function Done(c: Core, n: nat): Core {
    c.(tasks := c.tasks - {n})
  }

  predicate ChangeSettles(discovered: set<Id>, change: Change) {
    change.Add? <==> change.id !in discovered
  }

  function ApplyChange(ids: set<Id>, change: Change): set<Id> {
    if change.Add? then ids + {change.id} else ids - {change.id}
  }

  /** Applies changes up to the first that contradicts the discovered set and so calls for a
      resynchronisation; returns the set, and the changes left after that one. */
  function RunChanges(discovered: set<Id>, changes: seq<Change>): (set<Id>, Option<seq<Change>>)
    decreases |changes|
  {
    if changes == [] then (discovered, None)
    else if ChangeSettles(discovered, changes[0]) then
      RunChanges(ApplyChange(discovered, changes[0]), changes[1..])
    else (discovered, Some(changes[1..]))
  }

  /** A whole list of changes applied, with the replies to the discovery requests that it calls for,
      in order. A request fails when its reply is an error or never comes. */
  function ApplyAll(discovered: set<Id>, changes: seq<Change>, replies: seq<Reply<set<Id>>>): (set<Id>, Reply<()>)
    decreases |changes|
  {
    if changes == [] then (discovered, Ok(()))
    else if ChangeSettles(discovered, changes[0]) then ApplyAll(ApplyChange(discovered, changes[0]), changes[1..], replies)
    else if replies == [] then (discovered, Err(Lost))
    else if replies[0].Err? then (discovered, Err(replies[0].code))
    else ApplyAll(replies[0].value, changes[1..], replies[1..])
  }

  /** Cutting the loop at its resynchronisations does not change its outcome. */
  lemma {:induction false} RunChangesThenResume(discovered: set<Id>, changes: seq<Change>, replies: seq<Reply<set<Id>>>)
    ensures var (d, rest) := RunChanges(discovered, changes);
      ApplyAll(discovered, changes, replies) ==
        if rest.None? then (d, Ok(()))
        else if replies == [] then (d, Err(Lost))
        else if replies[0].Err? then (d, Err(replies[0].code))
        else ApplyAll(replies[0].value, rest.value, replies[1..])
    decreases |changes|
  {
    if changes != [] && ChangeSettles(discovered, changes[0]) {
      RunChangesThenResume(ApplyChange(discovered, changes[0]), changes[1..], replies);
    }
  }

  /** A list of distinct additions never needs a resynchronisation on an empty set. */
  lemma {:induction false} FreshAdditionsSettle(discovered: set<Id>, ids: seq<Id>)
    requires NoDuplicates(ids) && forall x :: x in ids ==> x !in discovered
    ensures RunChanges(discovered, Adds(ids)) == (discovered + Elements(ids), None)
    decreases |ids|
  {
    if ids == [] {
      assert discovered + Elements(ids) == discovered;
    } else {
      assert Adds(ids)[1..] == Adds(ids[1..]);
      assert discovered + {ids[0]} + Elements(ids[1..]) == discovered + Elements(ids);
      FreshAdditionsSettle(discovered + {ids[0]}, ids[1..]);
    }
  }

  /** The end of the peer listener branch: on the first message, offers are queued for every
      peer that it adds. */
  function FinishDiscovery(c: Core, discovered: set<Id>, changes: seq<Change>): Core {
    var c' := c.(discovered := discovered);
    if c.first then QueueOffers(c'.(first := false), AddedIds(changes)) else c'
  }

  /** The peer listener branch of `step`: the listener is queued again and the changes are applied,
      until a failing discovery request interrupts them. */
  function OnPeerChanges(c: Core, changes: seq<Change>, replies: seq<Reply<set<Id>>>): (Core, Reply<()>) {
    var heard := Queue(c, PeerListener);
    var (d, r) := ApplyAll(c.discovered, changes, replies);
    if r.Ok? then (FinishDiscovery(heard, d, changes), r) else (heard.(discovered := d), r)
  }

  /** What a completed task resolved to. */
  datatype Completion =
    | Discovered(changes: seq<Change>)
    | Received(from: Signal, at: nat)
    | OfferCreated(offer: Payload)
    | AnswerCreated(answer: Payload)
    | Resolved
    | Failed

  /** Which results a task can resolve to. */
  predicate Fits(t: Task, r: Completion) {
    r.Failed? ||
    match t
    case PeerListener => r.Discovered?
    case Listener(_) => r.Received?
    case CreateOffer(_) => r.OfferCreated?
    case ReceiveOffer(_, _, _) => r.AnswerCreated?
    case _ => r.Resolved?
  }

  /** The offer or answer that the completion makes `step` signal. */
  function Outgoing(t: Task, r: Completion): Option<(Side, Id, Payload)> {
    if t.CreateOffer? && r.OfferCreated? then Some((OfferSide, t.remote, r.offer))
    else if t.ReceiveOffer? && r.AnswerCreated? then Some((AnswerSide, t.remote, r.answer))
    else None
  }

  /** `step`, once task `n` has resolved to `r`: `replies` answer its peer discovery requests and
      `sent` answers the signalling request, if one was made. */
  function Step(c: Core, n: nat, r: Completion, replies: seq<Reply<set<Id>>>, sent: Reply<()>): (Core, Reply<()>)
    requires n in c.tasks && Fits(c.tasks[n], r)
  {
    if r.Failed? then (Done(c, n), Err(Lost)) else Handle(Done(c, n), c.tasks[n], r, replies, sent)
  }

  /** The branch of `step` for a task that has left the set of pending tasks. */
  function Handle(c: Core, t: Task, r: Completion, replies: seq<Reply<set<Id>>>, sent: Reply<()>): (Core, Reply<()>)
    requires Fits(t, r) && !r.Failed?
  {
    match t
    case PeerListener => OnPeerChanges(c, r.changes, replies)
    case Listener(side) => (OnReceived(c, side, r.from, r.at), Ok(()))
    case ReceiveAnswer(remote, _, _) => (Queue(c, LocalCplt(remote)), Ok(()))
    case CreateOffer(_) => (c, Forgive(sent))
    case ReceiveOffer(remote, _, _) => (if sent.Ok? then Queue(c, RemoteCplt(remote)) else c, Forgive(sent))
    case LocalCplt(_) => (c, Ok(()))
    case RemoteCplt(_) => (c, Ok(()))
  }

  /** A received signal: its listener is queued again, and then the callback. */
  function OnReceived(c: Core, side: Side, x: Signal, at: nat): Core {
    Queue(Queue(c, Listener(side)),
      if side == OfferSide then ReceiveOffer(x.sender, x.payload, at) else ReceiveAnswer(x.sender, x.payload, at))
  }

  /** A failed precondition only abandons the chain; any other error is returned. */
  function Forgive(sent: Reply<()>): Reply<()> {
    if sent == Err(FailedPrecondition) then Ok(()) else sent
  }
}
