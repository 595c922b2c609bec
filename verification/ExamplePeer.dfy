/** The example peer: the five callbacks that its signalling client calls, sharing one map. */
module ExamplePeer {
  import opened Vocabulary
  import opened System
  import ConnectionMap

  class Callbacks {
    const connections: ConnectionMap.PeerConnectionMap<Conn>

    constructor ()
      ensures fresh(connections) && connections.inner == map[]
    {
      connections := new ConnectionMap.PeerConnectionMap();
    }

    /** Keeps the new local connection and passes its offer on, unless the peer is already known. */
    method CreateOffer(remoteId: Id, offer: Payload) returns (r: Option<Payload>)
      modifies connections
      ensures connections.inner == ConnectionMap.Insert(old(connections.inner), remoteId, LocalConn(remoteId)).0
      ensures r == if remoteId in old(connections.inner) then None else Some(offer)
    {
      var ok := connections.Insert(remoteId, LocalConn(remoteId));
      r := if ok then Some(offer) else None;
    }

    /** Takes the local connection out, to apply the answer to it. */
    method ReceiveAnswer(remoteId: Id) returns (connection: Option<Conn>)
      modifies connections
      ensures (connections.inner, connection) == ConnectionMap.Take(old(connections.inner), remoteId)
    {
      connection := connections.Take(remoteId);
    }

    /** The rest of the callback, once the answer was applied or refused; other callbacks may have
        run in between. It puts the connection back if it was applied, and otherwise drops it. */
    method AnswerApplied(remoteId: Id, connection: Conn, applied: bool) returns (ok: bool)
      modifies connections
      ensures if applied then (connections.inner, ok) == ConnectionMap.Place(old(connections.inner), remoteId, connection)
              else connections.inner == old(connections.inner) && !ok
    {
      if !applied {
        return false;
      }
      ok := connections.Place(remoteId, connection);
    }

    /** Keeps the new remote connection and passes its answer on, unless the peer is already known. */
    method ReceiveOffer(remoteId: Id, answer: Payload) returns (r: Option<Payload>)
      modifies connections
      ensures connections.inner == ConnectionMap.Insert(old(connections.inner), remoteId, RemoteConn(remoteId)).0
      ensures r == if remoteId in old(connections.inner) then None else Some(answer)
    {
      var ok := connections.Insert(remoteId, RemoteConn(remoteId));
      r := if ok then Some(answer) else None;
    }

    /** Both completion callbacks take the connection for good, to exchange messages over it. */
    method SigCplt(remoteId: Id) returns (r: Option<Conn>)
      modifies connections
      ensures (connections.inner, r) == ConnectionMap.Take(old(connections.inner), remoteId)
    {
      r := connections.Take(remoteId);
    }
  }
}
