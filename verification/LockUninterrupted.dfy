/** A request whose lock scopes run with no other in between is the atomic handler. */
module LockUninterrupted {
  import opened Vocabulary
  import opened Channels
  import opened Broadcast
  import opened Server
  import opened LockScopes

  /** Request `k` has finished for this ID with this reply, and the server is now `h`. */
  ghost predicate Answered(s: Fine, k: nat, id: Id, h: Hub, reply: Reply<()>) {
    && s.hub == h && k < |s.flights| && s.flights[k].Finished? && s.flights[k].id == id && s.flights[k].reply == reply
  }

  /** Advertising: fetch the ID, insert the entry, broadcast. */
  lemma AdvertiseAlone(s: Fine) returns (s1: Fine, s2: Fine, s3: Fine)
    requires Possible(s, Fetch)
    ensures var (h, r) := Admit(s.hub);
      var k := |s.flights|;
      && s1 == Do(s, Fetch) && Possible(s1, Insert(k)) && s2 == Do(s1, Insert(k))
      && if r.Err? then Answered(s2, k, s.hub.gen, h, Err(r.code))
         else Possible(s2, BroadcastAdd(k)) && s3 == Do(s2, BroadcastAdd(k)) && Answered(s3, k, r.value, h, Ok(()))
  {
    var k := |s.flights|;
    s1 := Do(s, Fetch);
    s2 := Do(s1, Insert(k));
    s3 := if Admit(s.hub).1.Ok? then Do(s2, BroadcastAdd(k)) else s2;
  }

  /** Tearing down: broadcast the removal, take the entry out. */
  lemma TeardownAlone(s: Fine, id: Id) returns (s1: Fine, s2: Fine, s3: Fine)
    requires Possible(s, BeginTeardown(id))
    ensures var k := |s.flights|;
      && s1 == Do(s, BeginTeardown(id)) && Possible(s1, BroadcastRemove(k)) && s2 == Do(s1, BroadcastRemove(k))
      && Possible(s2, Move.Remove(k)) && s3 == Do(s2, Move.Remove(k))
      && Answered(s3, k, id, Evict(s.hub, id).0, Evict(s.hub, id).1)
  {
    var k := |s.flights|;
    s1 := Do(s, BeginTeardown(id));
    s2 := Do(s1, BroadcastRemove(k));
    s3 := Do(s2, Move.Remove(k));
  }

  /** Signalling: try the target's sender, and if it has disconnected drop the target. */
  lemma SignalAlone(s: Fine, side: Side, target: Id, x: Signal) returns (s1: Fine, s2: Fine, s3: Fine)
    ensures var (h, r) := Send(s.hub, side, target, x);
      var k := |s.flights|;
      && s1 == Do(s, BeginSignal(side, target, x))
      && if Judge(s.hub, side, target) != Gone then Answered(s1, k, target, h, r)
         else
           && Possible(s1, BroadcastRemove(k)) && s2 == Do(s1, BroadcastRemove(k))
           && Possible(s2, Move.Remove(k)) && s3 == Do(s2, Move.Remove(k)) && Answered(s3, k, target, h, r)
  {
    var k := |s.flights|;
    s1 := Do(s, BeginSignal(side, target, x));
    if Judge(s.hub, side, target) == Gone {
      s2 := Do(s1, BroadcastRemove(k));
      s3 := Do(s2, Move.Remove(k));
    } else {
      s2, s3 := s1, s1;
    }
  }

  /** Opening a peer listener: list the others, subscribe. */
  lemma ListenAlone(s: Fine, id: Id, list: seq<Id>) returns (s1: Fine, s2: Fine)
    requires Possible(s, Snapshot(id, list))
    ensures var k := |s.flights|;
      && s1 == Do(s, Snapshot(id, list)) && Possible(s1, Subscribe(k)) && s2 == Do(s1, Subscribe(k))
      && Answered(s2, k, id, s.hub, Ok(())) && id in s2.subs
      && s2.subs[id].list == NewStream(list, s.hub.log).order && s2.subs[id].start == NewStream(list, s.hub.log).start
  {
    s1 := Do(s, Snapshot(id, list));
    s2 := Do(s1, Subscribe(|s.flights|));
  }
}
