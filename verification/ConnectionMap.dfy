/** The example peer's map of connections, passed between its callbacks by taking and placing. */
module ConnectionMap {
  import opened Vocabulary

  /** `None` marks a connection that a callback has taken out. */
  type Conns<C> = map<Id, Option<C>>

  /** Inserting stores the connection even when it then reports a pre-existing entry. */
  function Insert<C>(m: Conns<C>, id: Id, x: C): (Conns<C>, bool) {
    (m[id := Some(x)], id !in m)
  }

  function Take<C>(m: Conns<C>, id: Id): (Conns<C>, Option<C>) {
    if id in m then (m[id := None], m[id]) else (m, None)
  }

  /** Placing stores the connection even when it then reports a dropped one. */
  function Place<C>(m: Conns<C>, id: Id, x: C): (Conns<C>, bool) {
    if id in m then (m[id := Some(x)], m[id].None?) else (m, false)
  }

  /** A connection that was taken can be put back, and that restores the map. */
  lemma TakeThenPlace<C>(m: Conns<C>, id: Id)
    requires Take(m, id).1.Some?
    ensures var (taken, x) := Take(m, id); Place(taken, id, x.value) == (m, true)
  {
    var (taken, x) := Take(m, id);
    assert taken[id := x] == m;
  }

  class PeerConnectionMap<C> {
    var inner: Conns<C>

    constructor ()
      ensures inner == map[]
    {
      inner := map[];
    }

    method Insert(id: Id, x: C) returns (ok: bool)
      modifies this
      ensures ok == (id !in old(inner))
      ensures inner == old(inner)[id := Some(x)]
    {
      ok := id !in inner;
      inner := inner[id := Some(x)];
    }

    method Take(id: Id) returns (r: Option<C>)
      modifies this
      ensures r.Some? <==> id in old(inner) && old(inner)[id].Some?
      ensures r.Some? ==> r == old(inner)[id]
      ensures inner == if id in old(inner) then old(inner)[id := None] else old(inner)
    {
      if id !in inner {
        return None;
      }
      r := inner[id];
      inner := inner[id := None];
    }

    method Place(id: Id, x: C) returns (ok: bool)
      modifies this
      ensures ok <==> id in old(inner) && old(inner)[id].None?
      ensures inner == if id in old(inner) then old(inner)[id := Some(x)] else old(inner)
    {
      if id !in inner {
        return false;
      }
      ok := inner[id].None?;
      inner := inner[id := Some(x)];
    }
  }
}
