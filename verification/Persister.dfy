/** The storage a server keeps across crashes: one cell for Raft's state, one for the service's
    snapshot, each replaced as a whole. */
module Persister {
  import opened Commands
  import opened RaftServer

  class Persister<Snapshot> {
    var raftState: Option<Durable>
    var snapshot: Option<Snapshot>

    constructor ()
      ensures raftState == None && snapshot == None
    {
      raftState, snapshot := None, None;
    }

    /** A fresh persister with the same content, out of reach of whoever holds this one. */
    method Copy() returns (p: Persister<Snapshot>)
      ensures fresh(p) && p.raftState == raftState && p.snapshot == snapshot
    {
      p := new Persister();
      p.raftState, p.snapshot := raftState, snapshot;
    }

    method SaveRaftState(data: Durable)
      modifies this`raftState
      ensures raftState == Some(data)
    {
      raftState := Some(data);
    }

    method SaveSnapshot(data: Snapshot)
      modifies this`snapshot
      ensures snapshot == Some(data)
    {
      snapshot := Some(data);
    }
  }
}
