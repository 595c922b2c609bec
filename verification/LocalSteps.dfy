/** What every run of one client's `step` keeps, and how long it can go on by itself. */
module LocalSteps {
  import opened Vocabulary
  import opened Client
  import opened Weights

  datatype Input = Input(n: nat, r: Completion, replies: seq<Reply<set<Id>>>, sent: Reply<()>)

  predicate Legal(c: Core, i: Input) {
    i.n in c.tasks && Fits(c.tasks[i.n], i.r)
  }

  function Next(c: Core, i: Input): (Core, Reply<()>)
    requires Legal(c, i)
  {
    Step(c, i.n, i.r, i.replies, i.sent)
  }

  /** A run of `step`, which the caller ends at the first error. */
  ghost predicate IsRun(cs: seq<Core>, inputs: seq<Input>) {
    && |cs| == |inputs| + 1
    && (forall k :: 0 <= k < |inputs| ==> Legal(cs[k], inputs[k]) && cs[k + 1] == Next(cs[k], inputs[k]).0)
    && (forall k :: 0 <= k < |inputs| - 1 ==> Next(cs[k], inputs[k]).1.Ok?)
  }

  function Holders(c: Core, t: Task): set<nat> {
    set n | n in c.tasks && c.tasks[n] == t
  }

  /** Exactly one task of each listener is pending. */
  ghost predicate OneOfEach(c: Core) {
    && (forall n :: n in c.tasks ==> n < c.next)
    && |Holders(c, PeerListener)| == 1
    && |Holders(c, Listener(OfferSide))| == 1
    && |Holders(c, Listener(AnswerSide))| == 1
  }

  lemma HoldersDone(c: Core, n: nat, t: Task)
    requires n in c.tasks
    ensures Holders(Done(c, n), t) == Holders(c, t) - {n}
  {
  }

  lemma HoldersQueue(c: Core, u: Task, t: Task)
    requires forall n :: n in c.tasks ==> n < c.next
    ensures Holders(Queue(c, u), t) == Holders(c, t) + (if u == t then {c.next} else {})
    ensures c.next !in Holders(c, t)
  {
  }

  lemma HoldersFinish(c: Core, d: set<Id>, changes: seq<Change>, t: Task)
    requires IsListener(t) && forall n :: n in c.tasks ==> n < c.next
    ensures var c' := FinishDiscovery(c, d, changes);
      Holders(c', t) == Holders(c, t) && (forall n :: n in c'.tasks ==> n < c'.next)
  {
  }

  lemma StepKeepsHolders(c: Core, i: Input, t: Task)
    requires OneOfEach(c) && Legal(c, i) && !i.r.Failed? && IsListener(t)
    ensures var c' := Next(c, i).0;
      Holders(c', t) == Holders(c, t) - {i.n} + (if c.tasks[i.n] == t then {c.next} else {})
      && (forall n :: n in c'.tasks ==> n < c'.next)
  {
  }

  /** Any step whose task does not itself fail puts back the listener that it completed, whether the
      step then succeeds or its signalling or discovery request fails. */
  lemma StepKeepsListeners(c: Core, i: Input)
    requires OneOfEach(c) && Legal(c, i) && !i.r.Failed?
    ensures OneOfEach(Next(c, i).0)
  {
    StepKeepsHolders(c, i, PeerListener);
    StepKeepsHolders(c, i, Listener(OfferSide));
    StepKeepsHolders(c, i, Listener(AnswerSide));
  }

  lemma NewCoreListens(id: Id)
    ensures OneOfEach(NewCore(id))
  {
    assert Holders(NewCore(id), PeerListener) == {0};
    assert Holders(NewCore(id), Listener(OfferSide)) == {1};
    assert Holders(NewCore(id), Listener(AnswerSide)) == {2};
  }

  /** In any run of `step`, before and after every step up to the first error, exactly one peer, one
      offer and one answer listener task is pending, so the set of tasks is never empty. The same
      holds after a final step that failed only in its signalling or discovery request. */
  lemma {:induction false} ListenersAreConserved(id: Id, cs: seq<Core>, inputs: seq<Input>, k: nat)
    requires IsRun(cs, inputs) && cs[0] == NewCore(id) && k < |cs|
    requires k == |inputs| && k > 0 ==> !inputs[k - 1].r.Failed?
    ensures OneOfEach(cs[k]) && cs[k].tasks != map[]
  {
    if k == 0 {
      NewCoreListens(id);
    } else {
      ListenersAreConserved(id, cs, inputs, k - 1);
      StepKeepsListeners(cs[k - 1], inputs[k - 1]);
    }
    assert cs[k].tasks == map[] ==> Holders(cs[k], PeerListener) == {};
  }

  /** How many steps a pending task can still cause without a further listener completing. */
  function Weight(t: Task): nat {
    match t
    case PeerListener => 0
    case Listener(_) => 0
    case ReceiveAnswer(_, _, _) => 2
    case ReceiveOffer(_, _, _) => 2
    case _ => 1
  }

  function WeightsOf(tasks: map<nat, Task>): map<nat, nat> {
    map n | n in tasks :: Weight(tasks[n])
  }

  /** The rank of a client: the weights of its pending tasks. */
  function Rank(c: Core): nat {
    Total(WeightsOf(c.tasks), c.next)
  }

  lemma RankDone(c: Core, n: nat)
    requires n in c.tasks && forall n :: n in c.tasks ==> n < c.next
    ensures Rank(c) == Rank(Done(c, n)) + Weight(c.tasks[n])
  {
    TotalWithout(WeightsOf(c.tasks), n, c.next);
    assert WeightsOf(Done(c, n).tasks) == WeightsOf(c.tasks) - {n};
  }

  lemma RankQueue(c: Core, t: Task)
    requires forall n :: n in c.tasks ==> n < c.next
    ensures Rank(Queue(c, t)) == Rank(c) + Weight(t)
  {
    TotalPlus(WeightsOf(c.tasks), c.next, Weight(t));
    assert WeightsOf(Queue(c, t).tasks) == WeightsOf(c.tasks)[c.next := Weight(t)];
  }

  /** Completing a task that is not a listener lowers the rank, whatever it resolves to. */
  lemma StepLowersRank(c: Core, i: Input)
    requires Legal(c, i) && !IsListener(c.tasks[i.n]) && forall n :: n in c.tasks ==> n < c.next
    ensures var c' := Next(c, i).0;
      Rank(c') < Rank(c) && (forall n :: n in c'.tasks ==> n < c'.next)
  {
    var d := Done(c, i.n);
    RankDone(c, i.n);
    match c.tasks[i.n]
    case ReceiveAnswer(r, _, _) => RankQueue(d, LocalCplt(r));
    case ReceiveOffer(r, _, _) => RankQueue(d, RemoteCplt(r));
    case _ =>
  }

  /** Between two listener completions a client takes at most as many steps as the rank of its
      pending tasks, in whatever order they complete. */
  lemma {:induction false} StepsAreBounded(cs: seq<Core>, inputs: seq<Input>, from: nat, to: nat)
    requires IsRun(cs, inputs) && from <= to <= |inputs|
    requires forall n :: n in cs[from].tasks ==> n < cs[from].next
    requires forall k :: from <= k < to ==> !IsListener(cs[k].tasks[inputs[k].n])
    ensures to - from <= Rank(cs[from])
    decreases |inputs| - from
  {
    if from < to {
      StepLowersRank(cs[from], inputs[from]);
      StepsAreBounded(cs, inputs, from + 1, to);
    }
  }
}
