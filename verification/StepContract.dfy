/** What one `step` of a client does, told by its outcome: how the loop over peer changes runs, what
    is signalled to whom, which tasks are queued, and when an error is returned. */
module StepContract {
  import opened Vocabulary
  import opened Channels
  import opened Server
  import opened Client

  /** A change that a client does not expect. */
  predicate Contradicts(discovered: set<Id>, change: Change) {
    if change.Add? then change.id in discovered else change.id !in discovered
  }

  /** One round of the loop: `k` discovery requests have been answered before it, and `k'` after it.
      An unexpected change takes one more request, whose reply replaces the set. */
  ghost predicate Round(change: Change, replies: seq<Reply<set<Id>>>, d: set<Id>, k: nat, d': set<Id>, k': nat) {
    if Contradicts(d, change) then k < |replies| && replies[k] == Ok(d') && k' == k + 1
    else d' == (if change.Add? then d + {change.id} else d - {change.id}) && k' == k
  }

  /** Some rounds of the loop: before round `i` the set is `sets[i]`, with `used[i]` requests answered. */
  ghost predicate Rounds(discovered: set<Id>, changes: seq<Change>, replies: seq<Reply<set<Id>>>, sets: seq<set<Id>>, used: seq<nat>) {
    && 1 <= |sets| == |used| <= |changes| + 1 && sets[0] == discovered && used[0] == 0
    && forall i :: 0 <= i < |sets| - 1 ==> Round(changes[i], replies, sets[i], used[i], sets[i + 1], used[i + 1])
  }

  /** The loop has ended with `d` after all changes, or at a request that failed or was never answered. */
  ghost predicate Ended(changes: seq<Change>, replies: seq<Reply<set<Id>>>, n: nat, d: set<Id>, k: nat, r: Reply<()>) {
    if n >= |changes| then r == Ok(())
    else
      && Contradicts(d, changes[n]) && k <= |replies|
      && if k == |replies| then r == Err(Lost) else replies[k].Err? && r == Err(replies[k].code)
  }

  /** The loop over peer changes, from `discovered`, ends with the set `d` and the result `r`. */
  ghost predicate LoopEnds(discovered: set<Id>, changes: seq<Change>, replies: seq<Reply<set<Id>>>, d: set<Id>, r: Reply<()>) {
    exists sets, used ::
      Rounds(discovered, changes, replies, sets, used) && d == sets[|sets| - 1]
      && Ended(changes, replies, |sets| - 1, d, used[|sets| - 1], r)
  }

  function Shift(used: seq<nat>, k: nat): (r: seq<nat>)
    ensures |r| == |used| && forall i :: 0 <= i < |used| ==> r[i] == used[i] + k
  {
    seq(|used|, i requires 0 <= i < |used| => used[i] + k)
  }

  lemma {:induction false} LoopRuns(discovered: set<Id>, changes: seq<Change>, replies: seq<Reply<set<Id>>>) returns (sets: seq<set<Id>>, used: seq<nat>)
    ensures Rounds(discovered, changes, replies, sets, used)
    ensures var (d, r) := ApplyAll(discovered, changes, replies);
      d == sets[|sets| - 1] && Ended(changes, replies, |sets| - 1, d, used[|sets| - 1], r)
    decreases |changes|
  {
    if changes == [] || (Contradicts(discovered, changes[0]) && (replies == [] || replies[0].Err?)) {
      sets, used := [discovered], [0];
    } else {
      var k := if Contradicts(discovered, changes[0]) then 1 else 0;
      var next := if k == 1 then replies[0].value else ApplyChange(discovered, changes[0]);
      sets, used := LoopRuns(next, changes[1..], replies[k..]);
      sets, used := FirstRound(discovered, changes, replies, k, next, sets, used);
    }
  }

  lemma FirstRound(discovered: set<Id>, changes: seq<Change>, replies: seq<Reply<set<Id>>>, k: nat, next: set<Id>, sets: seq<set<Id>>, used: seq<nat>)
      returns (sets': seq<set<Id>>, used': seq<nat>)
    requires changes != [] && k <= |replies| && Round(changes[0], replies, discovered, 0, next, k)
    requires Rounds(next, changes[1..], replies[k..], sets, used)
    ensures sets' == [discovered] + sets && used' == [0] + Shift(used, k)
    ensures Rounds(discovered, changes, replies, sets', used')
  {
    sets', used' := [discovered] + sets, [0] + Shift(used, k);
    forall i | 0 <= i < |sets'| - 1 ensures Round(changes[i], replies, sets'[i], used'[i], sets'[i + 1], used'[i + 1]) {
      if i > 0 {
        assert Round(changes[1..][i - 1], replies[k..], sets[i - 1], used[i - 1], sets[i], used[i]);
      }
    }
  }

  /** The specified loop ends as told. */
  lemma ApplyAllEnds(discovered: set<Id>, changes: seq<Change>, replies: seq<Reply<set<Id>>>)
    ensures LoopEnds(discovered, changes, replies, ApplyAll(discovered, changes, replies).0, ApplyAll(discovered, changes, replies).1)
  {
    var sets, used := LoopRuns(discovered, changes, replies);
  }

  /** Two accounts of the loop agree as far as both go. */
  lemma {:induction false} SameRounds(discovered: set<Id>, changes: seq<Change>, replies: seq<Reply<set<Id>>>,
      sets: seq<set<Id>>, used: seq<nat>, sets': seq<set<Id>>, used': seq<nat>, i: nat)
    requires Rounds(discovered, changes, replies, sets, used) && Rounds(discovered, changes, replies, sets', used')
    requires i < |sets| && i < |sets'|
    ensures sets[i] == sets'[i] && used[i] == used'[i]
  {
    if i > 0 {
      SameRounds(discovered, changes, replies, sets, used, sets', used', i - 1);
      assert Round(changes[i - 1], replies, sets[i - 1], used[i - 1], sets[i], used[i]);
      assert Round(changes[i - 1], replies, sets'[i - 1], used'[i - 1], sets'[i], used'[i]);
    }
  }

  /** The loop has one outcome: the specified one. */
  lemma LoopEndsOnlySo(discovered: set<Id>, changes: seq<Change>, replies: seq<Reply<set<Id>>>, d: set<Id>, r: Reply<()>)
    ensures LoopEnds(discovered, changes, replies, d, r) <==> (d, r) == ApplyAll(discovered, changes, replies)
  {
    ApplyAllEnds(discovered, changes, replies);
    var sets, used := LoopRuns(discovered, changes, replies);
    if LoopEnds(discovered, changes, replies, d, r) {
      var sets', used' :| Rounds(discovered, changes, replies, sets', used') && d == sets'[|sets'| - 1]
        && Ended(changes, replies, |sets'| - 1, d, used'[|sets'| - 1], r);
      var i := if |sets| <= |sets'| then |sets| - 1 else |sets'| - 1;
      SameRounds(discovered, changes, replies, sets, used, sets', used', i);
      if |sets| != |sets'| {
        OnlyOneEnds(discovered, changes, replies, sets, used, sets', used', ApplyAll(discovered, changes, replies).1, r);
      }
    }
  }

  lemma LoopResult(discovered: set<Id>, changes: seq<Change>, replies: seq<Reply<set<Id>>>, d: set<Id>, r: Reply<()>)
    requires LoopEnds(discovered, changes, replies, d, r)
    ensures r == Ok(()) || r.Err?
  {
  }

  lemma OnlyOneEnds(discovered: set<Id>, changes: seq<Change>, replies: seq<Reply<set<Id>>>,
      sets: seq<set<Id>>, used: seq<nat>, sets': seq<set<Id>>, used': seq<nat>, r: Reply<()>, r': Reply<()>)
    requires Rounds(discovered, changes, replies, sets, used) && Rounds(discovered, changes, replies, sets', used')
    requires Ended(changes, replies, |sets| - 1, sets[|sets| - 1], used[|sets| - 1], r)
    requires Ended(changes, replies, |sets'| - 1, sets'[|sets'| - 1], used'[|sets'| - 1], r')
    ensures |sets| == |sets'|
  {
    var i := if |sets| <= |sets'| then |sets| - 1 else |sets'| - 1;
    SameRounds(discovered, changes, replies, sets, used, sets', used', i);
    if i < |sets'| - 1 {
      NotEndedYet(discovered, changes, replies, sets', used', i, r);
    }
    if i < |sets| - 1 {
      NotEndedYet(discovered, changes, replies, sets, used, i, r');
    }
    hide Rounds, Ended;
  }

  /** The loop does not end where it goes on. */
  lemma NotEndedYet(discovered: set<Id>, changes: seq<Change>, replies: seq<Reply<set<Id>>>, sets: seq<set<Id>>, used: seq<nat>, i: nat, r: Reply<()>)
    requires Rounds(discovered, changes, replies, sets, used) && i < |sets| - 1
    ensures !Ended(changes, replies, i, sets[i], used[i], r)
  {
    assert Round(changes[i], replies, sets[i], used[i], sets[i + 1], used[i + 1]);
  }

  /** Task `n` has left the pending tasks, and `ts` were queued, in this order. */
  ghost predicate Queues(c: Core, c': Core, n: nat, ts: seq<Task>) {
    && c'.id == c.id && c'.next == c.next + |ts|
    && (forall m :: m in c'.tasks <==> (m in c.tasks && m != n) || c.next <= m < c'.next)
    && (forall m :: m in c'.tasks ==> c'.tasks[m] == if c.next <= m < c'.next then ts[m - c.next] else c.tasks[m])
  }

  function OfferTasks(ids: seq<Id>): seq<Task> {
    seq(|ids|, i requires 0 <= i < |ids| => CreateOffer(ids[i]))
  }

  /** What a step returns once its signal was answered: a failed precondition is passed over. */
  ghost predicate Passes(sent: Reply<()>, result: Reply<()>) {
    if sent == Err(FailedPrecondition) then result == Ok(()) else result == sent
  }

  /** What a step does to the client and what it returns, when its signal, if any, was answered by
      `sent`. */
  ghost predicate Outcome(c: Core, n: nat, r: Completion, replies: seq<Reply<set<Id>>>, sent: Reply<()>, c': Core, result: Reply<()>)
    requires n in c.tasks && Fits(c.tasks[n], r)
  {
    if r.Failed? then Queues(c, c', n, []) && c'.discovered == c.discovered && c'.first == c.first && result == Err(Lost)
    else
      match c.tasks[n]
      case PeerListener =>
        && LoopEnds(c.discovered, r.changes, replies, c'.discovered, result)
        && c'.first == (c.first && result.Err?)
        && Queues(c, c', n, [PeerListener] + if c.first && result.Ok? then OfferTasks(AddedIds(r.changes)) else [])
      case Listener(side) =>
        && Queues(c, c', n, [Listener(side), if side == OfferSide then ReceiveOffer(r.from.sender, r.from.payload, r.at)
                                             else ReceiveAnswer(r.from.sender, r.from.payload, r.at)])
        && c'.discovered == c.discovered && c'.first == c.first && result == Ok(())
      case CreateOffer(_) =>
        Queues(c, c', n, []) && c'.discovered == c.discovered && c'.first == c.first && Passes(sent, result)
      case ReceiveOffer(remote, _, _) =>
        && Queues(c, c', n, if sent.Ok? then [RemoteCplt(remote)] else [])
        && c'.discovered == c.discovered && c'.first == c.first && Passes(sent, result)
      case ReceiveAnswer(remote, _, _) =>
        Queues(c, c', n, [LocalCplt(remote)]) && c'.discovered == c.discovered && c'.first == c.first && result == Ok(())
      case _ =>
        Queues(c, c', n, []) && c'.discovered == c.discovered && c'.first == c.first && result == Ok(())
  }

  ghost predicate Fresh(c: Core) {
    forall n :: n in c.tasks ==> n < c.next
  }

  lemma PeerListenerOutcome(c: Core, n: nat, changes: seq<Change>, replies: seq<Reply<set<Id>>>, sent: Reply<()>)
    requires Fresh(c) && n in c.tasks && c.tasks[n].PeerListener?
    ensures var (c', result) := Step(c, n, Discovered(changes), replies, sent);
      Outcome(c, n, Discovered(changes), replies, sent, c', result)
  {
    ApplyAllEnds(c.discovered, changes, replies);
    hide ApplyAll, LoopEnds, AddedIds;
  }

  /** The specified step has this outcome. */
  lemma StepOutcome(c: Core, n: nat, r: Completion, replies: seq<Reply<set<Id>>>, sent: Reply<()>)
    requires Fresh(c) && n in c.tasks && Fits(c.tasks[n], r)
    ensures var (c', result) := Step(c, n, r, replies, sent); Outcome(c, n, r, replies, sent, c', result)
  {
    hide LoopEnds, ApplyAll;
    if c.tasks[n].PeerListener? && !r.Failed? {
      PeerListenerOutcome(c, n, r.changes, replies, sent);
    } else {
      hide OnPeerChanges;
    }
  }

  /** The offer or answer that a completed callback makes `step` signal, and the server's reply. */
  function Signalled(h: Hub, localId: Id, t: Task, r: Completion, reachable: bool): (Hub, Reply<()>) {
    var out := Outgoing(t, r);
    if out.None? || !reachable then (h, Err(Lost))
    else Send(h, out.value.0, out.value.1, Signal(localId, out.value.2))
  }

  /** What a step does to the server. A created offer goes to the remote peer's offer channel, and a
      created answer to its answer channel, in the client's own name; nothing else is sent. */
  ghost predicate Transmits(h: Hub, h': Hub, localId: Id, t: Task, r: Completion, reachable: bool, sent: Reply<()>) {
    if t.CreateOffer? && r.OfferCreated? && reachable then Forwards(h, h', OfferSide, t.remote, Signal(localId, r.offer), sent)
    else if t.ReceiveOffer? && r.AnswerCreated? && reachable then Forwards(h, h', AnswerSide, t.remote, Signal(localId, r.answer), sent)
    else h' == h && sent == Err(Lost)
  }

  lemma SignalledTransmits(h: Hub, localId: Id, t: Task, r: Completion, reachable: bool)
    ensures var (h', sent) := Signalled(h, localId, t, r, reachable); Transmits(h, h', localId, t, r, reachable, sent)
  {
    hide Send, Forwards;
    if t.CreateOffer? && r.OfferCreated? {
      SendForwards(h, OfferSide, t.remote, Signal(localId, r.offer));
    }
    if t.ReceiveOffer? && r.AnswerCreated? {
      SendForwards(h, AnswerSide, t.remote, Signal(localId, r.answer));
    }
  }

  /** When a step succeeds: its task did not fail, every discovery request that it called for was
      answered, and its signal, if any, was accepted or refused for a failed precondition. */
  lemma StepSucceedsIff(c: Core, n: nat, r: Completion, replies: seq<Reply<set<Id>>>, sent: Reply<()>)
    requires n in c.tasks && Fits(c.tasks[n], r)
    ensures Step(c, n, r, replies, sent).1.Ok? <==>
      && !r.Failed?
      && (c.tasks[n].PeerListener? ==> exists d :: LoopEnds(c.discovered, r.changes, replies, d, Ok(())))
      && (c.tasks[n].CreateOffer? || c.tasks[n].ReceiveOffer? ==> sent.Ok? || sent == Err(FailedPrecondition))
  {
    if c.tasks[n].PeerListener? && !r.Failed? {
      var (d, result) := ApplyAll(c.discovered, r.changes, replies);
      LoopEndsOnlySo(c.discovered, r.changes, replies, d, result);
      forall d' | LoopEnds(c.discovered, r.changes, replies, d', Ok(())) ensures result == Ok(()) {
        LoopEndsOnlySo(c.discovered, r.changes, replies, d', Ok(()));
      }
      LoopResult(c.discovered, r.changes, replies, d, result);
    }
    hide LoopEnds, ApplyAll;
  }

  /** The peers that a list of changes adds: taking them is a homomorphism on lists. */
  lemma {:induction false} AddedIdsConcat(a: seq<Change>, b: seq<Change>, x: Id)
    ensures AddedIds(a + b) == AddedIds(a) + AddedIds(b)
    ensures AddedIds([Add(x)]) == [x] && AddedIds([Remove(x)]) == []
  {
    if a == [] {
      assert a + b == b;
    } else {
      assert (a + b)[1..] == a[1..] + b;
      AddedIdsConcat(a[1..], b, x);
    }
  }
}
