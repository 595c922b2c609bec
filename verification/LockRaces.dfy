/** Which races between concurrent handlers leave a trace: what the replies of signals say about the
    past, and exactly when a peer listener misses a peer for good. */
module LockRaces {
  import opened Vocabulary
  import opened Channels
  import opened Server
  import opened Registry
  import opened LockScopes
  import Client

  /** The move `ms[j]` began the signal that request `k` carries out, and was judged so. */
  ghost predicate Began(ss: seq<Fine>, ms: seq<Move>, j: nat, k: nat, target: Id, why: Verdict) {
    && j < |ms| && j < |ss| && ms[j].BeginSignal? && ms[j].target == target
    && k == |ss[j].flights| && why == Judge(ss[j].hub, ms[j].side, target)
  }

  ghost predicate CarriesOut(s: Fine, k: nat, target: Id, why: Verdict) {
    && k < |s.flights| && s.flights[k].id == target
    && (s.flights[k].Announcing? || s.flights[k].Removing? || s.flights[k].Finished?)
    && s.flights[k].call == SignalCall(why)
  }

  /** A signal's request begins with the judgement and keeps it. */
  lemma CarriedOutBefore(s: Fine, m: Move, k: nat, target: Id, why: Verdict)
    requires Possible(s, m) && CarriesOut(Do(s, m), k, target, why)
    ensures CarriesOut(s, k, target, why) || (m.BeginSignal? && m.target == target && k == |s.flights| && why == Judge(s.hub, m.side, target))
  {
  }

  lemma {:induction false} WhoBegan(ss: seq<Fine>, ms: seq<Move>, i: nat, k: nat, target: Id, why: Verdict) returns (j: nat)
    requires IsRun(ss, ms) && i < |ss| && CarriesOut(ss[i], k, target, why)
    ensures j < i && Began(ss, ms, j, k, target, why)
  {
    assert i > 0;
    CarriedOutBefore(ss[i - 1], ms[i - 1], k, target, why);
    hide Do, Possible, Judge, CarriesOut;
    if CarriesOut(ss[i - 1], k, target, why) {
      j := WhoBegan(ss, ms, i - 1, k, target, why);
    } else {
      j := i - 1;
    }
  }

  /** Whatever races a signal takes part in, its sender gets the reply for what its target was when
      the signal was tried: a failed precondition iff the target was absent, not listening or
      disconnected, an abort iff its channel was full, and otherwise the channel took the signal.
      A target found disconnected is unregistered by then, and its removal was broadcast. */
  lemma RefusalsReachSenders(ss: seq<Fine>, ms: seq<Move>, i: nat, k: nat, target: Id, why: Verdict, reply: Reply<()>) returns (j: nat)
    requires IsRun(ss, ms) && i < |ss| && At(ss[i], k, Finished(target, SignalCall(why), reply))
    ensures j < i && ms[j].BeginSignal? && ms[j].target == target && k == |ss[j].flights|
    ensures var found := Judge(ss[j].hub, ms[j].side, target);
      && (reply == Err(FailedPrecondition) <==> found in {Absent, NotListening, Gone})
      && (reply == Err(Aborted) <==> found == Overfull)
      && (reply == Ok(()) <==> found == Accept)
      && (found == Gone ==> target !in ss[i].hub.peers && Change.Remove(target) in ss[i].hub.log)
      && (found == Accept ==> ss[j + 1].hub == Send(ss[j].hub, ms[j].side, target, ms[j].x).0)
      && (found != Accept ==> ss[j + 1].hub == ss[j].hub)
  {
    FineAlways(ss, ms, i);
    assert FlightOk(ss[i].hub, ss[i].flights[k]);
    j := WhoBegan(ss, ms, i, k, target, why);
  }

  ghost predicate Enters(s: Fine, m: Move, id: Id) {
    m.Insert? && m.k < |s.flights| && s.flights[m.k] == Generated(id) && id !in s.hub.peers
  }

  ghost predicate Leaves(s: Fine, m: Move, id: Id) {
    m.Remove? && m.k < |s.flights| && s.flights[m.k].Removing? && s.flights[m.k].id == id && id in s.hub.peers
  }

  ghost predicate Broadcasts(s: Fine, m: Move, change: Change) {
    || (m.BroadcastAdd? && m.k < |s.flights| && change == Add(s.flights[m.k].id))
    || (m.BroadcastRemove? && m.k < |s.flights| && change == Change.Remove(s.flights[m.k].id))
  }

  /** The ID entered the registry at a move from `lo` up to, not including, `hi`; and so on. */
  ghost predicate EnteredIn(ss: seq<Fine>, ms: seq<Move>, lo: nat, hi: nat, id: Id) {
    exists a: nat :: lo <= a < hi && a < |ss| && a < |ms| && Enters(ss[a], ms[a], id)
  }

  ghost predicate LeftIn(ss: seq<Fine>, ms: seq<Move>, lo: nat, hi: nat, id: Id) {
    exists a: nat :: lo <= a < hi && a < |ss| && a < |ms| && Leaves(ss[a], ms[a], id)
  }

  ghost predicate BroadcastIn(ss: seq<Fine>, ms: seq<Move>, lo: nat, hi: nat, change: Change) {
    exists a: nat :: lo <= a < hi && a < |ss| && a < |ms| && Broadcasts(ss[a], ms[a], change)
  }

  /** What a move does to the log and the registry. */
  lemma MoveBooks(s: Fine, m: Move, id: Id)
    requires FineInv(s) && Possible(s, m)
    ensures id in Do(s, m).hub.peers <==> Enters(s, m, id) || (id in s.hub.peers && !Leaves(s, m, id))
    ensures Enters(s, m, id) ==> !Added(s.hub, id)
    ensures Leaves(s, m, id) ==> Removed(s.hub, id)
  {
    assert m.Insert? ==> FlightOk(s.hub, s.flights[m.k]);
    assert m.Remove? ==> FlightOk(s.hub, s.flights[m.k]);
  }

  lemma MoveLog(s: Fine, m: Move, change: Change)
    requires Possible(s, m)
    ensures s.hub.log <= Do(s, m).hub.log
    ensures change in Do(s, m).hub.log[|s.hub.log|..] <==> Broadcasts(s, m, change)
  {
  }

  /** The log grows by just the broadcasts. */
  lemma {:induction false} LogHistory(ss: seq<Fine>, ms: seq<Move>, lo: nat, hi: nat, change: Change)
    requires IsRun(ss, ms) && lo <= hi < |ss|
    ensures ss[lo].hub.log <= ss[hi].hub.log
    ensures change in ss[hi].hub.log[|ss[lo].hub.log|..] <==> BroadcastIn(ss, ms, lo, hi, change)
    decreases hi
  {
    if lo < hi {
      LogHistory(ss, ms, lo, hi - 1, change);
      MoveLog(ss[hi - 1], ms[hi - 1], change);
      var log0, log1, log2 := ss[lo].hub.log, ss[hi - 1].hub.log, ss[hi].hub.log;
      assert log2[|log0|..] == log1[|log0|..] + log2[|log1|..];
      OneMoreBroadcast(ss, ms, lo, hi, change);
    }
  }

  lemma OneMoreBroadcast(ss: seq<Fine>, ms: seq<Move>, lo: nat, hi: nat, change: Change)
    requires lo < hi && hi <= |ms| && hi <= |ss|
    ensures BroadcastIn(ss, ms, lo, hi, change) <==> BroadcastIn(ss, ms, lo, hi - 1, change) || Broadcasts(ss[hi - 1], ms[hi - 1], change)
  {
    hide Broadcasts;
  }

  lemma OneMoreEntry(ss: seq<Fine>, ms: seq<Move>, lo: nat, hi: nat, id: Id)
    requires lo < hi && hi <= |ms| && hi <= |ss|
    ensures EnteredIn(ss, ms, lo, hi, id) <==> EnteredIn(ss, ms, lo, hi - 1, id) || Enters(ss[hi - 1], ms[hi - 1], id)
    ensures LeftIn(ss, ms, lo, hi, id) <==> LeftIn(ss, ms, lo, hi - 1, id) || Leaves(ss[hi - 1], ms[hi - 1], id)
  {
    hide Enters, Leaves;
  }

  /** From any point on, a peer is registered iff it was and has not left, or has entered and not
      left; and it enters at most once. */
  lemma {:induction false} RegistryHistory(ss: seq<Fine>, ms: seq<Move>, lo: nat, hi: nat, id: Id)
    requires IsRun(ss, ms) && lo <= hi < |ss|
    ensures Booked(ss, ms, lo, hi, id)
    decreases hi
  {
    RunLength(ss, ms);
    if lo < hi {
      hide *;
      RegistryHistory(ss, ms, lo, hi - 1, id);
      RegistryStep(ss, ms, lo, hi - 1, id);
    } else {
      NothingYet(ss, ms, lo, id);
    }
  }

  lemma NothingYet(ss: seq<Fine>, ms: seq<Move>, lo: nat, id: Id)
    ensures !EnteredIn(ss, ms, lo, lo, id) && !LeftIn(ss, ms, lo, lo, id)
  {
  }

  /** What one move of a run does to the registration of a peer. */
  lemma StepBooks(ss: seq<Fine>, ms: seq<Move>, i: nat, id: Id)
    requires IsRun(ss, ms) && i < |ms|
    ensures id in ss[i + 1].hub.peers <==> Enters(ss[i], ms[i], id) || (id in ss[i].hub.peers && !Leaves(ss[i], ms[i], id))
    ensures Enters(ss[i], ms[i], id) ==> !Added(ss[i].hub, id) && id !in ss[i].hub.peers
    ensures Leaves(ss[i], ms[i], id) ==> Removed(ss[i + 1].hub, id) && Added(ss[i + 1].hub, id) && id in ss[i].hub.peers
    ensures Removed(ss[i].hub, id) ==> Added(ss[i].hub, id)
  {
    FineAlways(ss, ms, i);
    MoveBooks(ss[i], ms[i], id);
    AnnouncedStays(ss, ms, i, i + 1, id);
    RemovedWasAdded(ss[i], id);
    hide FineInv, Enters, Leaves, Added, Removed;
  }

  lemma RemovedWasAdded(s: Fine, id: Id)
    requires FineInv(s)
    ensures Removed(s.hub, id) ==> Added(s.hub, id)
  {
  }

  /** A peer is registered iff it was, or has entered, and has not left; it enters at most once. */
  ghost predicate Booked(ss: seq<Fine>, ms: seq<Move>, lo: nat, hi: nat, id: Id)
    requires lo <= hi < |ss|
  {
    && (id in ss[hi].hub.peers <==> (id in ss[lo].hub.peers || EnteredIn(ss, ms, lo, hi, id)) && !LeftIn(ss, ms, lo, hi, id))
    && (EnteredIn(ss, ms, lo, hi, id) ==> id !in ss[lo].hub.peers && !Added(ss[lo].hub, id))
    && (LeftIn(ss, ms, lo, hi, id) ==> Removed(ss[hi].hub, id) && Added(ss[hi].hub, id))
    && (LeftIn(ss, ms, lo, hi, id) ==> id in ss[lo].hub.peers || EnteredIn(ss, ms, lo, hi, id))
  }

  lemma RegistryStep(ss: seq<Fine>, ms: seq<Move>, lo: nat, i: nat, id: Id)
    requires IsRun(ss, ms) && lo <= i < |ms| == |ss| - 1 && Booked(ss, ms, lo, i, id)
    ensures Booked(ss, ms, lo, i + 1, id)
  {
    hide IsRun, EnteredIn, LeftIn, Enters, Leaves, Added, Removed;
    StepBooks(ss, ms, i, id);
    OneMoreEntry(ss, ms, lo, i + 1, id);
    AnnouncedStays(ss, ms, lo, i, id);
    AnnouncedStays(ss, ms, i, i + 1, id);
  }

  lemma RunLength(ss: seq<Fine>, ms: seq<Move>)
    requires IsRun(ss, ms)
    ensures |ss| == |ms| + 1 && ss[0] == START
  {
  }

  lemma AnnouncedStays(ss: seq<Fine>, ms: seq<Move>, lo: nat, hi: nat, id: Id)
    requires IsRun(ss, ms) && lo <= hi < |ss|
    ensures Added(ss[lo].hub, id) ==> Added(ss[hi].hub, id)
    ensures Removed(ss[lo].hub, id) ==> Removed(ss[hi].hub, id)
  {
    LogHistory(ss, ms, lo, hi, Add(id));
  }

  lemma SnapshotBefore(s: Fine, m: Move, k: nat, c: Id, list: seq<Id>)
    requires Possible(s, m) && At(Do(s, m), k, Snapshotted(c, list))
    ensures At(s, k, Snapshotted(c, list)) || (m == Snapshot(c, list) && k == |s.flights|)
  {
  }

  lemma {:induction false} WhoSnapshot(ss: seq<Fine>, ms: seq<Move>, i: nat, k: nat, c: Id, list: seq<Id>) returns (p: nat)
    requires IsRun(ss, ms) && i < |ss| && At(ss[i], k, Snapshotted(c, list))
    ensures p < i && ms[p] == Snapshot(c, list) && k == |ss[p].flights|
  {
    SnapshotBefore(ss[i - 1], ms[i - 1], k, c, list);
    if At(ss[i - 1], k, Snapshotted(c, list)) {
      p := WhoSnapshot(ss, ms, i - 1, k, c, list);
    } else {
      p := i - 1;
    }
  }

  /** The listener that `c` has in state `i` took its snapshot at move `p` and subscribed at move `q`. */
  ghost predicate ListensSince(ss: seq<Fine>, ms: seq<Move>, i: nat, c: Id, p: nat, q: nat) {
    && p < q < i < |ss| && |ms| + 1 == |ss|
    && ms[p].Snapshot? && ms[p].id == c && ms[q] == Subscribe(|ss[p].flights|)
    && c in ss[i].subs && ss[i].subs[c] == Subscription(ms[p].list, |ss[q].hub.log|)
  }

  lemma SubscribedBefore(s: Fine, m: Move, c: Id)
    requires Possible(s, m) && c in Do(s, m).subs
    ensures (c in s.subs && s.subs[c] == Do(s, m).subs[c])
      || (m.Subscribe? && At(s, m.k, Snapshotted(c, Do(s, m).subs[c].list)) && Do(s, m).subs[c].start == |s.hub.log|)
  {
  }

  /** Every listener took a snapshot of the other registered peers, and subscribed later. */
  lemma {:induction false} ListenerHistory(ss: seq<Fine>, ms: seq<Move>, i: nat, c: Id) returns (p: nat, q: nat)
    requires IsRun(ss, ms) && i < |ss| && c in ss[i].subs
    ensures ListensSince(ss, ms, i, c, p, q) && Lists(ms[p].list, Discover(ss[p].hub, c))
  {
    SubscribedBefore(ss[i - 1], ms[i - 1], c);
    hide Do;
    if c in ss[i - 1].subs && ss[i - 1].subs[c] == ss[i].subs[c] {
      p, q := ListenerHistory(ss, ms, i - 1, c);
    } else {
      q := i - 1;
      p := WhoSnapshot(ss, ms, q, ms[q].k, c, ss[i].subs[c].list);
    }
  }

  /** What a listener makes of its list and the changes since. */
  ghost function View(s: Fine, c: Id): set<Id>
    requires c in s.subs && s.subs[c].start <= |s.hub.log|
  {
    Fold(Elements(s.subs[c].list), s.hub.log[s.subs[c].start..]) - {c}
  }

  /** Whether the change of a peer that comes last decides, or the list that it is applied to. */
  lemma {:induction false} FoldDepends(a: set<Id>, b: set<Id>, log: seq<Change>, id: Id)
    ensures Add(id) !in log && Change.Remove(id) !in log ==> (id in Fold(a, log) <==> id in a)
    ensures Add(id) in log || Change.Remove(id) in log ==> (id in Fold(a, log) <==> id in Fold(b, log))
    decreases |log|
  {
    if log != [] {
      FoldDepends(a, b, log[..|log| - 1], id);
      assert log == log[..|log| - 1] + [log[|log| - 1]];
    }
  }

  /** No change of the peer was broadcast. */
  ghost predicate Silent(ss: seq<Fine>, ms: seq<Move>, lo: nat, hi: nat, id: Id) {
    !BroadcastIn(ss, ms, lo, hi, Add(id)) && !BroadcastIn(ss, ms, lo, hi, Change.Remove(id))
  }

  /** The peer's advertise request inserted it after the snapshot and announced it before the
      subscription, and no teardown announced its removal by then. */
  ghost predicate CameBetween(ss: seq<Fine>, ms: seq<Move>, p: nat, q: nat, id: Id) {
    EnteredIn(ss, ms, p, q, id) && BroadcastIn(ss, ms, 0, q, Add(id)) && !BroadcastIn(ss, ms, 0, q, Change.Remove(id))
  }

  /** The peer was inserted before the snapshot, a teardown announced its removal before the
      subscription, and took it out after the snapshot. */
  ghost predicate WentBetween(ss: seq<Fine>, ms: seq<Move>, p: nat, q: nat, i: nat, id: Id) {
    EnteredIn(ss, ms, 0, p, id) && LeftIn(ss, ms, p, i, id) && BroadcastIn(ss, ms, 0, q, Change.Remove(id))
  }

  /** A listener that took its snapshot at `p` and subscribed at `q` has missed a peer up to `i`. */
  ghost predicate Missed(ss: seq<Fine>, ms: seq<Move>, p: nat, q: nat, i: nat, id: Id) {
    Silent(ss, ms, q, i, id) && (CameBetween(ss, ms, p, q, id) || WentBetween(ss, ms, p, q, i, id))
  }

  /** With nothing in flight the registry holds what was announced and not withdrawn. */
  lemma RegistryAnnounced(s: Fine, id: Id)
    requires FineInv(s) && !InFlight(s, id)
    ensures id in s.hub.peers <==> Added(s.hub, id) && !Removed(s.hub, id)
    ensures id in s.hub.peers <==> id in Fold({}, s.hub.log)
  {
  }

  lemma AnnouncedIff(ss: seq<Fine>, ms: seq<Move>, q: nat, i: nat, id: Id)
    requires IsRun(ss, ms) && q <= i < |ss|
    ensures Added(ss[q].hub, id) <==> BroadcastIn(ss, ms, 0, q, Add(id))
    ensures Removed(ss[q].hub, id) <==> BroadcastIn(ss, ms, 0, q, Change.Remove(id))
    ensures Silent(ss, ms, q, i, id) ==>
      (Added(ss[i].hub, id) <==> Added(ss[q].hub, id)) && (Removed(ss[i].hub, id) <==> Removed(ss[q].hub, id))
  {
    RunLength(ss, ms);
    hide IsRun, BroadcastIn;
    LogHistory(ss, ms, 0, q, Add(id));
    LogHistory(ss, ms, 0, q, Change.Remove(id));
    LogHistory(ss, ms, q, i, Add(id));
    LogHistory(ss, ms, q, i, Change.Remove(id));
    var before, after := ss[q].hub.log, ss[i].hub.log;
    assert before[0..] == before;
    assert after == before + after[|before|..];
  }

  lemma EntriesSplit(ss: seq<Fine>, ms: seq<Move>, p: nat, q: nat, i: nat, id: Id)
    requires p <= q <= i
    ensures EnteredIn(ss, ms, p, i, id) <==> EnteredIn(ss, ms, p, q, id) || EnteredIn(ss, ms, q, i, id)
  {
    hide Enters;
  }

  /** The snapshot and the registry differ just on peers that came, or went, since. */
  lemma SinceSnapshot(ss: seq<Fine>, ms: seq<Move>, p: nat, q: nat, i: nat, id: Id)
    requires IsRun(ss, ms) && p < q < i < |ss| && !InFlight(ss[i], id) && Silent(ss, ms, q, i, id)
    ensures !(id in ss[p].hub.peers <==> id in ss[i].hub.peers) <==> CameBetween(ss, ms, p, q, id) || WentBetween(ss, ms, p, q, i, id)
  {
    RunLength(ss, ms);
    FineAlways(ss, ms, i);
    RegistryAnnounced(ss[i], id);
    hide IsRun, FineInv, InFlight, EnteredIn, LeftIn, BroadcastIn, Added, Removed, Silent;
    AnnouncedIff(ss, ms, q, i, id);
    RegistryHistory(ss, ms, 0, p, id);
    RegistryHistory(ss, ms, p, i, id);
    RegistryHistory(ss, ms, p, q, id);
    RegistryHistory(ss, ms, q, i, id);
    EntriesSplit(ss, ms, p, q, i, id);
  }

  /** A listener's view and the registry disagree on a peer just if the listener has missed it. */
  lemma ViewDiffersAt(ss: seq<Fine>, ms: seq<Move>, i: nat, c: Id, p: nat, q: nat, id: Id)
    requires IsRun(ss, ms) && ListensSince(ss, ms, i, c, p, q) && id != c && !InFlight(ss[i], id)
    requires ss[i].subs[c].start <= |ss[i].hub.log|
    ensures !(id in View(ss[i], c) <==> id in ss[i].hub.peers) <==> Missed(ss, ms, p, q, i, id)
  {
    var log, start, list := ss[i].hub.log, ss[i].subs[c].start, ss[i].subs[c].list;
    FineAlways(ss, ms, i);
    RegistryAnnounced(ss[i], id);
    LogHistory(ss, ms, q, i, Add(id));
    LogHistory(ss, ms, q, i, Change.Remove(id));
    assert Possible(ss[p], ms[p]);
    if Silent(ss, ms, q, i, id) {
      SinceSnapshot(ss, ms, p, q, i, id);
    }
    hide IsRun, FineInv, InFlight, Silent, CameBetween, WentBetween, Fold;
    assert log == log[..start] + log[start..];
    FoldConcat({}, log[..start], log[start..]);
    FoldDepends(Elements(list), Fold({}, log[..start]), log[start..], id);
    SilentIff(ss, ms, q, i, id);
  }

  lemma SilentIff(ss: seq<Fine>, ms: seq<Move>, q: nat, i: nat, id: Id)
    ensures Silent(ss, ms, q, i, id) <==> !BroadcastIn(ss, ms, q, i, Add(id)) && !BroadcastIn(ss, ms, q, i, Change.Remove(id))
  {
  }

  /** Convergence at this granularity. In any run, with nothing in flight, the view of a listener
      that took its snapshot at move `p` and subscribed at move `q` differs from the registry if and
      only if another peer was inserted between the two and announced before the subscription, or
      had its removal announced before the subscription and carried out after the snapshot, and no
      later broadcast mentions it. */
  lemma ViewDiffersIff(ss: seq<Fine>, ms: seq<Move>, i: nat, c: Id, p: nat, q: nat)
    requires IsRun(ss, ms) && ListensSince(ss, ms, i, c, p, q) && forall id :: !InFlight(ss[i], id)
    ensures ss[i].subs[c].start <= |ss[i].hub.log|
    ensures View(ss[i], c) != ss[i].hub.peers.Keys - {c} <==> exists id :: id != c && Missed(ss, ms, p, q, i, id)
  {
    LogHistory(ss, ms, q, i, Add(0));
    forall id | id != c ensures !(id in View(ss[i], c) <==> id in ss[i].hub.peers) <==> Missed(ss, ms, p, q, i, id) {
      ViewDiffersAt(ss, ms, i, c, p, q, id);
    }
    hide IsRun, Missed, InFlight;
    assert c !in View(ss[i], c);
  }

  /** A peer that has advertised and taken its snapshot: nobody else is registered. */
  const SNAPSHOT_TAKEN: Fine := Fine(Hub(1, map[0 := {}], [Add(0)], map[]), map[],
    [Finished(0, AdvertiseCall, Ok(())), Snapshotted(0, [])])

  lemma FirstPeerSnapshots() returns (ss: seq<Fine>, ms: seq<Move>)
    ensures IsRun(ss, ms) && |ms| == 4 && ss[4] == SNAPSHOT_TAKEN
  {
    ms := [Fetch, Insert(0), BroadcastAdd(0), Snapshot(0, [])];
    var s1 := Do(START, Fetch);
    var s2 := Do(s1, Insert(0));
    var s3 := Do(s2, BroadcastAdd(0));
    assert s3.flights[0] == Finished(0, AdvertiseCall, Ok(()));
    assert Discover(s3.hub, 0) == {};
    ss := [START, s1, s2, s3, Do(s3, Snapshot(0, []))];
  }

  lemma SecondPeerComes() returns (s1: Fine, s2: Fine, s3: Fine, s4: Fine)
    ensures Possible(SNAPSHOT_TAKEN, Fetch) && s1 == Do(SNAPSHOT_TAKEN, Fetch)
    ensures Possible(s1, Insert(2)) && s2 == Do(s1, Insert(2))
    ensures Possible(s2, BroadcastAdd(2)) && s3 == Do(s2, BroadcastAdd(2))
    ensures Possible(s3, Subscribe(1)) && s4 == Do(s3, Subscribe(1))
    ensures (forall f :: f in s4.flights ==> f.Finished?) && s4.hub.log == [Add(0), Add(1)] && s4.hub.peers.Keys == {0, 1}
    ensures s4.subs == map[0 := Subscription([], 2)]
  {
    s1 := Do(SNAPSHOT_TAKEN, Fetch);
    s2 := Do(s1, Insert(2));
    s3 := Do(s2, BroadcastAdd(2));
    s4 := Do(s3, Subscribe(1));
  }

  /** It can happen: a peer advertises between another's snapshot and its subscription, and is never
      discovered by it. */
  lemma SnapshotRace() returns (ss: seq<Fine>, ms: seq<Move>)
    ensures IsRun(ss, ms)
    ensures var s := ss[|ms|];
      && (forall f :: f in s.flights ==> f.Finished?) && 0 in s.subs && s.subs[0].start <= |s.hub.log|
      && View(s, 0) == {} && s.hub.peers.Keys == {0, 1}
  {
    ss, ms := FirstPeerSnapshots();
    var s1, s2, s3, s4 := SecondPeerComes();
    hide Possible, Do;
    ss, ms := ss + [s1, s2, s3, s4], ms + [Fetch, Insert(2), BroadcastAdd(2), Subscribe(1)];
    assert s4.hub.log[2..] == [] && Elements([]) == {};
  }

  /** Two peers have advertised, and a teardown of the second one has announced its removal. */
  const REMOVAL_ANNOUNCED: Fine := Fine(Hub(2, map[0 := {}, 1 := {}], [Add(0), Add(1), Change.Remove(1)], map[]), map[],
    [Finished(0, AdvertiseCall, Ok(())), Finished(1, AdvertiseCall, Ok(())), Removing(1, TeardownCall)])

  lemma FirstPeerAdvertises() returns (s1: Fine, s2: Fine, s3: Fine)
    ensures Possible(START, Fetch) && s1 == Do(START, Fetch)
    ensures Possible(s1, Insert(0)) && s2 == Do(s1, Insert(0))
    ensures Possible(s2, BroadcastAdd(0)) && s3 == Do(s2, BroadcastAdd(0))
    ensures s3 == Fine(Hub(1, map[0 := {}], [Add(0)], map[]), map[], [Finished(0, AdvertiseCall, Ok(()))])
  {
    s1 := Do(START, Fetch);
    s2 := Do(s1, Insert(0));
    s3 := Do(s2, BroadcastAdd(0));
  }

  lemma SecondPeerIsTornDown(s: Fine) returns (s1: Fine, s2: Fine, s3: Fine, s4: Fine)
    requires s == Fine(Hub(1, map[0 := {}], [Add(0)], map[]), map[], [Finished(0, AdvertiseCall, Ok(()))])
    ensures Possible(s, Fetch) && s1 == Do(s, Fetch)
    ensures Possible(s1, Insert(1)) && s2 == Do(s1, Insert(1))
    ensures Possible(s2, BroadcastAdd(1)) && s3 == Do(s2, BroadcastAdd(1))
    ensures Possible(s3, BeginTeardown(1)) && s4 == Do(s3, BeginTeardown(1))
    ensures Possible(s4, BroadcastRemove(2)) && Do(s4, BroadcastRemove(2)) == REMOVAL_ANNOUNCED
  {
    s1 := Do(s, Fetch);
    s2 := Do(s1, Insert(1));
    s3 := Do(s2, BroadcastAdd(1));
    assert s3.flights[1] == Finished(1, AdvertiseCall, Ok(()));
    s4 := Do(s3, BeginTeardown(1));
  }

  lemma FirstPeerListens() returns (s1: Fine, s2: Fine, s3: Fine)
    ensures Possible(REMOVAL_ANNOUNCED, Snapshot(0, [1])) && s1 == Do(REMOVAL_ANNOUNCED, Snapshot(0, [1]))
    ensures Possible(s1, Subscribe(3)) && s2 == Do(s1, Subscribe(3))
    ensures Possible(s2, Move.Remove(2)) && s3 == Do(s2, Move.Remove(2))
    ensures (forall f :: f in s3.flights ==> f.Finished?) && |s3.hub.log| == 3 && s3.hub.peers.Keys == {0}
    ensures s3.subs == map[0 := Subscription([1], 3)]
  {
    assert REMOVAL_ANNOUNCED.flights[0] == Finished(0, AdvertiseCall, Ok(()));
    s1 := Do(REMOVAL_ANNOUNCED, Snapshot(0, [1]));
    s2 := Do(s1, Subscribe(3));
    s3 := Do(s2, Move.Remove(2));
  }

  /** It can also happen that a peer whose removal was announced, but not carried out, before
      another's snapshot stays discovered by it. */
  lemma RemovalRace() returns (ss: seq<Fine>, ms: seq<Move>)
    ensures IsRun(ss, ms)
    ensures var s := ss[|ms|];
      && (forall f :: f in s.flights ==> f.Finished?) && 0 in s.subs && s.subs[0].start <= |s.hub.log|
      && View(s, 0) == {1} && s.hub.peers.Keys == {0}
  {
    var a1, a2, a3 := FirstPeerAdvertises();
    ss, ms := [START, a1, a2, a3], [Fetch, Insert(0), BroadcastAdd(0)];
    ss, ms := RemovalIsAnnounced(ss, ms);
    var c1, c2, c3 := FirstPeerListens();
    hide Possible, Do, START, REMOVAL_ANNOUNCED;
    ss, ms := ss + [c1, c2, c3], ms + [Snapshot(0, [1]), Subscribe(3), Move.Remove(2)];
    assert c3.hub.log[3..] == [] && Elements([1]) == {1};
  }

  lemma RemovalIsAnnounced(ss: seq<Fine>, ms: seq<Move>) returns (ss': seq<Fine>, ms': seq<Move>)
    requires IsRun(ss, ms) && ss[|ms|] == Fine(Hub(1, map[0 := {}], [Add(0)], map[]), map[], [Finished(0, AdvertiseCall, Ok(()))])
    ensures IsRun(ss', ms') && ss'[|ms'|] == REMOVAL_ANNOUNCED
  {
    var s1, s2, s3, s4 := SecondPeerIsTornDown(ss[|ms|]);
    hide Possible, Do, START, REMOVAL_ANNOUNCED;
    ss' := ss + [s1, s2, s3, s4, REMOVAL_ANNOUNCED];
    ms' := ms + [Fetch, Insert(1), BroadcastAdd(1), BeginTeardown(1), BroadcastRemove(2)];
  }
}
