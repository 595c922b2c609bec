/** The vocabulary shared by the signalling server, its clients and the example peer. */
module Vocabulary {

  /** A peer ID as generated by the server: a 64-bit counter value. */
  type Id = nat

  /** The number of distinct values of the 64-bit ID counter. */
  const ID_SPACE: nat := 0x1_0000_0000_0000_0000

  /** The capacity of every offer or answer channel, and of the broadcast ring. */
  const CAPACITY: nat := 16

  /** Session descriptions and candidates are opaque to signalling. */
  type Payload = string

  datatype Option<+T> = None | Some(value: T)

  datatype Change = Add(id: Id) | Remove(id: Id)

  /** Every peer owns two listeners: one for offers and one for answers. */
  datatype Side = OfferSide | AnswerSide

  /** An offer (sender is the offerer) or an answer (sender is the answerer). */
  datatype Signal = Signal(sender: Id, payload: Payload)

  /** The status codes that the server hands out. */
  datatype Code = FailedPrecondition | Aborted | InternalError | InvalidArgument | Lost

  datatype Reply<+T> = Ok(value: T) | Err(code: Code)

  predicate NoDuplicates(xs: seq<Id>) {
    forall i, j :: 0 <= i < j < |xs| ==> xs[i] != xs[j]
  }

  /** A sequence that enumerates a set, each element once, in some order. */
  ghost predicate Lists(xs: seq<Id>, elements: set<Id>) {
    NoDuplicates(xs) && (forall x :: x in xs <==> x in elements)
  }

  function Elements(xs: seq<Id>): set<Id> {
    set x | x in xs
  }

  /** The IDs below `n`. */
  function Below(n: nat): (ids: set<Id>)
    ensures forall x: Id :: x in ids <==> x < n
    ensures |ids| == n
  {
    if n == 0 then {} else Below(n - 1) + {n - 1}
  }

  lemma SubsetSize(a: set<Id>, b: set<Id>)
    requires a <= b
    ensures |a| <= |b|
  {
    assert b == a + (b - a);
  }

  lemma {:induction false} ListSize(xs: seq<Id>)
    requires NoDuplicates(xs)
    ensures |Elements(xs)| == |xs|
  {
    if xs == [] {
      assert Elements(xs) == {};
    } else {
      ListSize(xs[1..]);
      assert Elements(xs) == {xs[0]} + Elements(xs[1..]);
    }
  }

  function IndexOf(xs: seq<Id>, x: Id): (i: nat)
    requires x in xs
    ensures i < |xs| && xs[i] == x
  {
    if xs[0] == x then 0 else 1 + IndexOf(xs[1..], x)
  }

  function Adds(ids: seq<Id>): seq<Change> {
    seq(|ids|, i requires 0 <= i < |ids| => Add(ids[i]))
  }

  /** The IDs that a list of changes adds, in order. */
  function AddedIds(changes: seq<Change>): seq<Id> {
    if changes == [] then []
    else if changes[0].Add? then [changes[0].id] + AddedIds(changes[1..])
    else AddedIds(changes[1..])
  }

  lemma {:induction false} AddedIdsOfAdds(ids: seq<Id>)
    ensures AddedIds(Adds(ids)) == ids
  {
    if ids != [] {
      assert Adds(ids)[1..] == Adds(ids[1..]);
      AddedIdsOfAdds(ids[1..]);
    }
  }
}
