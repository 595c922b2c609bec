/** The server with its handlers split at their lock scopes, so that requests run concurrently. */
module LockScopes {
  import opened Vocabulary
  import opened Channels
  import opened Server
  import opened Registry
  import Client

  /** What a request asked for. A signal remembers how the target's channel took it. */
  datatype Call = AdvertiseCall | TeardownCall | SignalCall(why: Verdict) | ListenCall

  /** A request in flight, between two of its lock scopes, or finished with its reply. */
  datatype Flight =
    | Generated(id: Id)                   // advertise, about to insert its entry
    | Inserted(id: Id)                    // advertise, about to broadcast
    | Announcing(id: Id, call: Call)      // a teardown, about to broadcast
    | Removing(id: Id, call: Call)        // a teardown, about to remove the entry
    | Snapshotted(id: Id, list: seq<Id>)  // open_peer_listener, about to subscribe
    | Finished(id: Id, call: Call, reply: Reply<()>)

  /** A peer listener: its initial list, and where in the log it subscribed. */
  datatype Subscription = Subscription(list: seq<Id>, start: nat)

  datatype Fine = Fine(hub: Hub, subs: map<Id, Subscription>, flights: seq<Flight>)

  datatype Move =
    | Fetch
    | Insert(k: nat)
    | BroadcastAdd(k: nat)
    | BeginTeardown(id: Id)
    | BroadcastRemove(k: nat)
    | Remove(k: nat)
    | BeginSignal(side: Side, target: Id, x: Signal)
    | OpenSide(side: Side, id: Id)
    | Snapshot(id: Id, list: seq<Id>)
    | Subscribe(k: nat)
    | Consume(key: Key, fwd: nat, read: nat)
    | DropReceiver(key: Key)

  const START: Fine := Fine(EMPTY, map[], [])

  predicate At(s: Fine, k: nat, f: Flight) {
    k < |s.flights| && s.flights[k] == f
  }

  /** The peer's advertise request has returned its ID. */
  predicate Advertised(s: Fine, id: Id) {
    Finished(id, AdvertiseCall, Ok(())) in s.flights
  }

  /** Clients are honest: they tear down and listen under an ID that was returned to them. */
  ghost predicate Possible(s: Fine, m: Move) {
    match m
    case Fetch => s.hub.gen < ID_SPACE
    case Insert(k) => k < |s.flights| && s.flights[k].Generated?
    case BroadcastAdd(k) => k < |s.flights| && s.flights[k].Inserted?
    case BeginTeardown(id) => Advertised(s, id)
    case BroadcastRemove(k) => k < |s.flights| && s.flights[k].Announcing?
    case Remove(k) => k < |s.flights| && s.flights[k].Removing?
    case BeginSignal(_, _, _) => true
    case OpenSide(_, id) => Advertised(s, id)
    case Snapshot(id, list) => Advertised(s, id) && Lists(list, Discover(s.hub, id))
    case Subscribe(k) => k < |s.flights| && s.flights[k].Snapshotted?
    case Consume(key, fwd, read) =>
      key in s.hub.chans && s.hub.chans[key].fwd <= fwd <= |s.hub.chans[key].log| && s.hub.chans[key].read <= read <= fwd
    case DropReceiver(key) => key in s.hub.chans
  }

  function Start(s: Fine, f: Flight): Fine {
    s.(flights := s.flights + [f])
  }

  function Advance(s: Fine, k: nat, f: Flight): Fine
    requires k < |s.flights|
  {
    s.(flights := s.flights[k := f])
  }

  function Announce(s: Fine, change: Change): Fine {
    s.(hub := s.hub.(log := s.hub.log + [change]))
  }

  function DoInsert(s: Fine, k: nat): Fine
    requires k < |s.flights| && s.flights[k].Generated?
  {
    var id := s.flights[k].id;
    if id in s.hub.peers then Advance(s, k, Finished(id, AdvertiseCall, Err(InternalError)))
    else Advance(s.(hub := s.hub.(peers := s.hub.peers[id := {}])), k, Inserted(id))
  }

  /** Taking the entry out fails when another teardown was faster. A teardown returns just that; a
      signal returns it too, and otherwise that its target has disconnected. */
  function DoRemove(s: Fine, k: nat): Fine
    requires k < |s.flights| && s.flights[k].Removing?
  {
    var id, call := s.flights[k].id, s.flights[k].call;
    var torn: Reply<()> := if id in s.hub.peers then Ok(()) else Err(FailedPrecondition);
    var reply := if torn.Err? || call.TeardownCall? then torn else Err(FailedPrecondition);
    Advance(s.(hub := s.hub.(peers := s.hub.peers - {id})), k, Finished(id, call, reply))
  }

  /** Looking up the target's sender and trying it is one lock scope. */
  function DoBeginSignal(s: Fine, side: Side, target: Id, x: Signal): Fine {
    var why := Judge(s.hub, side, target);
    match why
    case Accept => Start(s.(hub := Send(s.hub, side, target, x).0), Finished(target, SignalCall(why), Ok(())))
    case Overfull => Start(s, Finished(target, SignalCall(why), Err(Aborted)))
    case Gone => Start(s, Announcing(target, SignalCall(why)))
    case _ => Start(s, Finished(target, SignalCall(why), Err(FailedPrecondition)))
  }

  function SetChan(s: Fine, key: Key, ch: Chan): Fine {
    s.(hub := s.hub.(chans := s.hub.chans[key := ch]))
  }

  ghost function Do(s: Fine, m: Move): Fine
    requires Possible(s, m)
  {
    match m
    case Fetch => Start(s.(hub := s.hub.(gen := s.hub.gen + 1)), Generated(s.hub.gen))
    case Insert(k) => DoInsert(s, k)
    case BroadcastAdd(k) =>
      Advance(Announce(s, Add(s.flights[k].id)), k, Finished(s.flights[k].id, AdvertiseCall, Ok(())))
    case BeginTeardown(id) => Start(s, Announcing(id, TeardownCall))
    case BroadcastRemove(k) =>
      Advance(Announce(s, Change.Remove(s.flights[k].id)), k, Removing(s.flights[k].id, s.flights[k].call))
    case Remove(k) => DoRemove(s, k)
    case BeginSignal(side, target, x) => DoBeginSignal(s, side, target, x)
    case OpenSide(side, id) => s.(hub := OpenListener(s.hub, side, id).0)
    case Snapshot(id, list) => Start(s, Snapshotted(id, list))
    case Subscribe(k) =>
      Advance(s.(subs := s.subs[s.flights[k].id := Subscription(s.flights[k].list, |s.hub.log|)]), k,
              Finished(s.flights[k].id, ListenCall, Ok(())))
    case Consume(key, fwd, read) => SetChan(s, key, s.hub.chans[key].(fwd := fwd, read := read))
    case DropReceiver(key) => SetChan(s, key, s.hub.chans[key].(alive := false))
  }

  ghost predicate IsRun(ss: seq<Fine>, ms: seq<Move>) {
    && |ss| == |ms| + 1 && ss[0] == START
    && forall i :: 0 <= i < |ms| ==> Possible(ss[i], ms[i]) && ss[i + 1] == Do(ss[i], ms[i])
  }

  predicate Added(h: Hub, id: Id) {
    Add(id) in h.log
  }

  predicate Removed(h: Hub, id: Id) {
    Change.Remove(id) in h.log
  }

  /** The folded log holds exactly the peers added and never removed. */
  ghost predicate FoldOk(h: Hub) {
    forall id :: id in Fold({}, h.log) <==> Added(h, id) && !Removed(h, id)
  }

  ghost predicate HubOk(h: Hub) {
    && (forall id: Id :: id in h.peers || Added(h, id) ==> id < h.gen)
    && (forall id :: Removed(h, id) ==> Added(h, id))
    && (forall id :: Added(h, id) && !Removed(h, id) ==> id in h.peers)
    && (forall key :: key in h.chans ==> Added(h, key.id))
  }

  /** What a request in flight, or its reply, says about its ID. */
  ghost predicate FlightOk(h: Hub, f: Flight) {
    match f
    case Generated(id) => id < h.gen && id !in h.peers && !Added(h, id)
    case Inserted(id) => id in h.peers && !Added(h, id)
    case Announcing(id, call) => Added(h, id) && call in {TeardownCall, SignalCall(Gone)}
    case Removing(id, call) => Removed(h, id) && call in {TeardownCall, SignalCall(Gone)}
    case Snapshotted(id, _) => true
    case Finished(id, call, reply) => FinishedOk(h, id, call, reply)
  }

  /** The replies: a signal's refusal reaches its sender by one code for each verdict, and a target
      found gone is unregistered by then, its removal broadcast. */
  ghost predicate FinishedOk(h: Hub, id: Id, call: Call, reply: Reply<()>) {
    match call
    case AdvertiseCall => reply == Ok(()) && Added(h, id)
    case TeardownCall => reply in {Ok(()), Err(FailedPrecondition)} && Removed(h, id) && id !in h.peers
    case SignalCall(why) =>
      && reply == SignalReply(why)
      && (why == Gone ==> Removed(h, id) && id !in h.peers)
    case ListenCall => true
  }

  function SignalReply(why: Verdict): Reply<()> {
    match why
    case Accept => Ok(())
    case Overfull => Err(Aborted)
    case _ => Err(FailedPrecondition)
  }

  ghost predicate FlightsOk(s: Fine) {
    forall k :: 0 <= k < |s.flights| ==> FlightOk(s.hub, s.flights[k])
  }

  predicate Advertising(f: Flight) {
    f.Generated? || f.Inserted?
  }

  /** Every generated ID belongs to one advertise request. */
  ghost predicate OwnIds(s: Fine) {
    forall j, k :: 0 <= j < k < |s.flights| && Advertising(s.flights[j]) && Advertising(s.flights[k]) ==>
      s.flights[j].id != s.flights[k].id
  }

  /** An advertise or a teardown of the peer is in flight. */
  ghost predicate InFlight(s: Fine, id: Id) {
    Inserted(id) in s.flights || exists call :: Removing(id, call) in s.flights
  }

  /** Registry and folded log differ only on peers with a request in flight. */
  ghost predicate Explained(s: Fine) {
    forall id :: id in s.hub.peers && (!Added(s.hub, id) || Removed(s.hub, id)) ==> InFlight(s, id)
  }

  ghost predicate FineInv(s: Fine) {
    FoldOk(s.hub) && HubOk(s.hub) && FlightsOk(s) && OwnIds(s) && Explained(s)
  }

  lemma StartKept(s: Fine, f: Flight)
    requires FineInv(s) && FlightOk(s.hub, f) && (Advertising(f) ==> forall g :: g in s.flights && Advertising(g) ==> g.id != f.id)
    ensures FineInv(Start(s, f))
  {
  }

  lemma StillInFlight(s: Fine, s': Fine, id: Id)
    requires InFlight(s, id) && forall f :: f in s.flights && f.id == id && (f.Inserted? || f.Removing?) ==> f in s'.flights
    ensures InFlight(s', id)
  {
  }

  /** The registry, the log and the channels' owners are as before. */
  ghost predicate SameBook(h: Hub, h': Hub) {
    && h.gen <= h'.gen && h'.peers.Keys == h.peers.Keys && h'.log == h.log
    && forall key :: key in h'.chans ==> key in h.chans || Added(h, key.id)
  }

  lemma SameBookKept(s: Fine, s': Fine)
    requires FineInv(s) && SameBook(s.hub, s'.hub) && s'.flights == s.flights
    ensures FineInv(s')
  {
  }

  lemma AdvanceKept(s: Fine, k: nat, f: Flight)
    requires FineInv(s) && k < |s.flights| && FlightOk(s.hub, f) && !Advertising(f) && s.flights[k].Snapshotted?
    ensures FineInv(Advance(s, k, f))
  {
    var s' := Advance(s, k, f);
    forall id | id in s'.hub.peers && (!Added(s'.hub, id) || Removed(s'.hub, id)) ensures InFlight(s', id) {
      Replaced(s, s', k, id);
    }
  }

  /** Advancing one request keeps the others in flight. */
  lemma Replaced(s: Fine, s': Fine, k: nat, id: Id)
    requires k < |s.flights| == |s'.flights| && s'.flights == s.flights[k := s'.flights[k]] && InFlight(s, id)
    requires s.flights[k].id == id ==> !s.flights[k].Inserted? && !s.flights[k].Removing?
    ensures InFlight(s', id)
  {
    forall f | f in s.flights && f.id == id && (f.Inserted? || f.Removing?) ensures f in s'.flights {
      var j :| 0 <= j < |s.flights| && s.flights[j] == f;
      assert s'.flights[j] == f;
    }
    StillInFlight(s, s', id);
  }

  lemma FetchKept(s: Fine)
    requires FineInv(s) && Possible(s, Fetch)
    ensures FineInv(Do(s, Fetch))
  {
  }

  /** Apart from one peer, nothing in the books changed. */
  ghost predicate SameElsewhere(h: Hub, h': Hub, id0: Id) {
    && h'.gen == h.gen && h'.chans == h.chans
    && forall id :: id != id0 ==>
         (id in h'.peers <==> id in h.peers) && (Added(h', id) <==> Added(h, id)) && (Removed(h', id) <==> Removed(h, id))
  }

  lemma FlightElsewhere(h: Hub, h': Hub, id0: Id, f: Flight)
    requires SameElsewhere(h, h', id0) && f.id != id0 && FlightOk(h, f)
    ensures FlightOk(h', f)
  {
  }

  /** A request advanced and changed what the books say about its own peer. */
  lemma AdvancedKept(s: Fine, s': Fine, k: nat)
    requires FineInv(s) && k < |s.flights| == |s'.flights| && s'.flights == s.flights[k := s'.flights[k]]
    requires var id := s.flights[k].id;
      && SameElsewhere(s.hub, s'.hub, id) && s'.flights[k].id == id
      && (Advertising(s'.flights[k]) ==> Advertising(s.flights[k]))
      && (forall j :: 0 <= j < |s.flights| && s.flights[j].id == id && j != k ==> FlightOk(s'.hub, s.flights[j]))
      && FlightOk(s'.hub, s'.flights[k])
      && (id in s'.hub.peers && (!Added(s'.hub, id) || Removed(s'.hub, id)) ==> InFlight(s', id))
    requires FoldOk(s'.hub) && HubOk(s'.hub)
    ensures FineInv(s')
  {
    var id0 := s.flights[k].id;
    forall j | 0 <= j < |s'.flights| ensures FlightOk(s'.hub, s'.flights[j]) {
      if j != k && s.flights[j].id != id0 {
        FlightElsewhere(s.hub, s'.hub, id0, s.flights[j]);
      }
    }
    forall id | id in s'.hub.peers && (!Added(s'.hub, id) || Removed(s'.hub, id)) ensures InFlight(s', id) {
      if id != id0 {
        Replaced(s, s', k, id);
      }
    }
  }

  lemma InsertKept(s: Fine, k: nat)
    requires FineInv(s) && Possible(s, Insert(k))
    ensures FineInv(DoInsert(s, k))
  {
    var s', id := DoInsert(s, k), s.flights[k].id;
    assert FlightOk(s.hub, s.flights[k]);
    forall j | 0 <= j < |s.flights| && s.flights[j].id == id && j != k ensures FlightOk(s'.hub, s.flights[j]) {
      assert FlightOk(s.hub, s.flights[j]);
    }
    assert s'.flights[k] == Inserted(id);
    AdvancedKept(s, s', k);
  }

  /** One more broadcast. */
  lemma FoldAnnounced(h: Hub, change: Change)
    requires FoldOk(h) && (change.Add? ==> !Added(h, change.id) && !Removed(h, change.id))
    ensures FoldOk(h.(log := h.log + [change]))
  {
  }

  lemma AnnouncedAdd(h: Hub, id: Id)
    requires HubOk(h) && id in h.peers && !Added(h, id)
    ensures var h' := h.(log := h.log + [Add(id)]); HubOk(h') && SameElsewhere(h, h', id) && Added(h', id) && !Removed(h', id)
  {
    var h' := h.(log := h.log + [Add(id)]);
    forall x ensures (Added(h', x) <==> Added(h, x) || x == id) && (Removed(h', x) <==> Removed(h, x)) {
      assert forall change :: change in h'.log <==> change in h.log || change == Add(id);
    }
  }

  lemma BroadcastAddKept(s: Fine, k: nat)
    requires FineInv(s) && Possible(s, BroadcastAdd(k))
    ensures FineInv(Do(s, BroadcastAdd(k)))
  {
    var s', id := Do(s, BroadcastAdd(k)), s.flights[k].id;
    assert FlightOk(s.hub, s.flights[k]);
    FoldAnnounced(s.hub, Add(id));
    assert s'.flights[k] == Finished(id, AdvertiseCall, Ok(()));
    AnnouncedAdd(s.hub, id);
    forall j | 0 <= j < |s.flights| && s.flights[j].id == id && j != k ensures FlightOk(s'.hub, s.flights[j]) {
      assert FlightOk(s.hub, s.flights[j]);
    }
    AdvancedKept(s, s', k);
  }

  lemma BroadcastRemoveKept(s: Fine, k: nat)
    requires FineInv(s) && Possible(s, BroadcastRemove(k))
    ensures FineInv(Do(s, BroadcastRemove(k)))
  {
    var s', id := Do(s, BroadcastRemove(k)), s.flights[k].id;
    assert FlightOk(s.hub, s.flights[k]);
    FoldAnnounced(s.hub, Change.Remove(id));
    forall j | 0 <= j < |s.flights| && s.flights[j].id == id && j != k ensures FlightOk(s'.hub, s.flights[j]) {
      assert FlightOk(s.hub, s.flights[j]);
    }
    assert s'.flights[k] == Removing(id, s.flights[k].call);
    AdvancedKept(s, s', k);
  }

  lemma RemoveKept(s: Fine, k: nat)
    requires FineInv(s) && Possible(s, Move.Remove(k))
    ensures FineInv(DoRemove(s, k))
  {
    var s', id := DoRemove(s, k), s.flights[k].id;
    assert FlightOk(s.hub, s.flights[k]);
    forall j | 0 <= j < |s.flights| && s.flights[j].id == id && j != k ensures FlightOk(s'.hub, s.flights[j]) {
      assert FlightOk(s.hub, s.flights[j]);
    }
    AdvancedKept(s, s', k);
  }

  lemma WasAdded(s: Fine, id: Id)
    requires FlightsOk(s) && Advertised(s, id)
    ensures Added(s.hub, id)
  {
  }

  lemma BeginSignalKept(s: Fine, side: Side, target: Id, x: Signal)
    requires FineInv(s)
    ensures FineInv(DoBeginSignal(s, side, target, x))
  {
    var why := Judge(s.hub, side, target);
    match why
    case Accept =>
      var sent := s.(hub := Send(s.hub, side, target, x).0);
      SameBookKept(s, sent);
      StartKept(sent, Finished(target, SignalCall(why), Ok(())));
    case Overfull => StartKept(s, Finished(target, SignalCall(why), Err(Aborted)));
    case Gone => StartKept(s, Announcing(target, SignalCall(why)));
    case _ => StartKept(s, Finished(target, SignalCall(why), Err(FailedPrecondition)));
  }

  lemma FineKept(s: Fine, m: Move)
    requires FineInv(s) && Possible(s, m)
    ensures FineInv(Do(s, m))
  {
    match m
    case Fetch => FetchKept(s);
    case Insert(k) => InsertKept(s, k);
    case BroadcastAdd(k) => BroadcastAddKept(s, k);
    case BeginTeardown(id) =>
      WasAdded(s, id);
      StartKept(s, Announcing(id, TeardownCall));
    case BroadcastRemove(k) => BroadcastRemoveKept(s, k);
    case Remove(k) => RemoveKept(s, k);
    case BeginSignal(side, target, x) => BeginSignalKept(s, side, target, x);
    case OpenSide(side, id) =>
      WasAdded(s, id);
      SameBookKept(s, Do(s, m));
    case Snapshot(id, list) => StartKept(s, Snapshotted(id, list));
    case Subscribe(k) =>
      var subscribed := s.(subs := Do(s, m).subs);
      SameBookKept(s, subscribed);
      AdvanceKept(subscribed, k, Finished(s.flights[k].id, ListenCall, Ok(())));
    case Consume(key, fwd, read) => SameBookKept(s, Do(s, m));
    case DropReceiver(key) => SameBookKept(s, Do(s, m));
  }

  lemma {:induction false} FineAlways(ss: seq<Fine>, ms: seq<Move>, i: nat)
    requires IsRun(ss, ms) && i < |ss|
    ensures FineInv(ss[i])
  {
    if i > 0 {
      FineAlways(ss, ms, i - 1);
      FineKept(ss[i - 1], ms[i - 1]);
    }
  }

  /** One-sided agreement. Even with handlers split at their lock scopes, the folded log is always
      a subset of the registry, and they differ only on peers with an advertise or a teardown
      between its lock scopes. */
  lemma FoldWithinRegistry(ss: seq<Fine>, ms: seq<Move>, i: nat)
    requires IsRun(ss, ms) && i < |ss|
    ensures Fold({}, ss[i].hub.log) <= ss[i].hub.peers.Keys
    ensures forall id :: id in ss[i].hub.peers.Keys - Fold({}, ss[i].hub.log) ==> InFlight(ss[i], id)
  {
    FineAlways(ss, ms, i);
  }

  /** A pending drop finishes by its own two remaining lock scopes, whatever happens between them. */
  lemma OthersLeaveIt(s: Fine, m: Move, k: nat)
    requires Possible(s, m) && k < |s.flights| && (s.flights[k].Announcing? || s.flights[k].Removing?)
    ensures k < |Do(s, m).flights|
    ensures Do(s, m).flights[k] ==
      if m == BroadcastRemove(k) then Removing(s.flights[k].id, s.flights[k].call)
      else if m == Move.Remove(k) then
        Finished(s.flights[k].id, s.flights[k].call,
          if s.flights[k].call.TeardownCall? && s.flights[k].id in s.hub.peers then Ok(()) else Err(FailedPrecondition))
      else s.flights[k]
    ensures s.flights[k].Announcing? ==> Possible(s, BroadcastRemove(k))
    ensures s.flights[k].Removing? ==> Possible(s, Move.Remove(k))
  {
  }
}
