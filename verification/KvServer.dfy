/** The store server and the clerk, updating their fields in place as the implementation does.
    Their methods are proved equal to the steps KvSystem takes on values. */
module KvServer {
  import opened Commands
  import opened Kv
  import opened KvSystem
  import RaftServer
  import RaftNode
  import Persister

  class RaftKV {
    const rf: RaftNode.Raft<Store>
    const persister: Persister.Persister<Store>
    const maxraftstate: int
    var db: map<string, string>
    var seqCheck: map<int, int>
    var callBack: map<int, CallBack>

    ghost function Abs(): Replica
      reads this
    {
      Replica(Store(db, seqCheck), callBack)
    }

    /** Recovery: the snapshot's two maps if there is one, and nobody listening. */
    constructor StartKVServer(peers: nat, me: nat, persister: Persister.Persister<Store>, maxraftstate: int)
      requires persister.raftState.Some? ==> RaftServer.Contiguous(persister.raftState.value.log)
      ensures this.persister == persister == rf.persister && this.maxraftstate == maxraftstate && fresh(rf)
      ensures rf.Valid() && rf.Abs() == RaftServer.Boot(persister.raftState)
      ensures Abs() == Replica(if persister.snapshot.Some? then persister.snapshot.value else EMPTY_STORE, map[])
      ensures callBack == map[]
      ensures match persister.snapshot
              case None => db == map[] && seqCheck == map[]
              case Some(s) => db == s.db && seqCheck == s.seqCheck
    {
      this.persister, this.maxraftstate := persister, maxraftstate;
      rf := new RaftNode.Raft.Make(peers, me, persister);
      db, seqCheck, callBack := map[], map[], map[];
      if persister.snapshot.Some? {
        var s := persister.snapshot.value;
        seqCheck, db := s.seqCheck, s.db;
      }
    }

    /** The first region of Get and PutAppend: a server that does not think it leads refuses. */
    method Refuses() returns (wrongLeader: bool)
      ensures wrongLeader == (rf.state != RaftServer.Leader)
    {
      var _, isLeader := rf.GetState();
      return !isLeader;
    }

    /** The second: make sure that the client has an entry, and Start.  Leadership may have been lost
        since; then Raft adds nothing, and the handler goes on to listen all the same. */
    method Begin(op: Operation) returns (isLeader: bool)
      requires rf.Valid()
      modifies this`callBack, rf, rf.persister
      ensures rf.Valid() && rf.Abs() == RaftServer.StartCommand(old(rf.Abs()), op).0
      ensures isLeader == (old(rf.state) == RaftServer.Leader)
      ensures var last := old(rf.log)[|old(rf.log)| - 1].index;
              rf.log == if isLeader then old(rf.log) + [RaftServer.Entry(rf.currentTerm, last + 1, op)] else old(rf.log)
      ensures callBack == if op.clientId in old(callBack) then old(callBack)
                          else old(callBack)[op.clientId := CallBack(false, 0)]
    {
      if op.clientId !in callBack { callBack := callBack[op.clientId := CallBack(false, 0)]; }
      var _, _, leader := rf.Submit(op);
      return leader;
    }

    method ListenCallBack(id: int, wantSeq: int)
      requires id in callBack
      modifies this`callBack
      ensures forall op: Operation :: op.clientId == id && op.clientSeq == wantSeq ==> Abs() == Listening(old(Abs()), op)
      ensures callBack == old(callBack)[id := CallBack(true, wantSeq)]
    {
      callBack := callBack[id := callBack[id].(listen := true)];
      callBack := callBack[id := callBack[id].(wantSeq := wantSeq)];
    }

    method UnlistenCallBack(id: int)
      requires id in callBack
      modifies this`callBack
      ensures Abs() == Unlistening(old(Abs()), id)
      ensures callBack == old(callBack)[id := CallBack(false, old(callBack)[id].wantSeq)]
    {
      callBack := callBack[id := callBack[id].(listen := false)];
    }

    /** The turn that takes a snapshot from Raft: it is decoded into the maps as they stand. */
    method TakeSnapshot(snapshot: Store)
      modifies this`db, this`seqCheck
      ensures Abs() == Replica(Install(old(Abs()).store, snapshot), old(callBack))
      ensures db == old(db) + snapshot.db && seqCheck == old(seqCheck) + snapshot.seqCheck
    {
      seqCheck := seqCheck + snapshot.seqCheck;
      db := db + snapshot.db;
    }

    /** One turn of runServer's loop for a command.  `answer` is what goes to the client's channel, `cut` the
        index Compaction is started with; stateSize is the size of Raft's saved state. */
    method TakeTurn(m: RaftServer.ApplyMsg, stateSize: int) returns (answer: Option<string>, cut: Option<nat>)
      requires m.command.Op?
      modifies this`db, this`seqCheck, this`callBack, persister`snapshot
      ensures Abs() == Turn(old(Abs()), m.command)
      ensures answer == if Answers(old(callBack), m.command) then Some(Answer(Abs().store, m.command)) else None
      ensures var Op(key, value, kind, id, seqNo) := m.command;
              var isNew := id !in old(seqCheck) || seqNo > old(seqCheck)[id];
              seqCheck == (if isNew then old(seqCheck)[id := seqNo] else old(seqCheck))
              && db == if !isNew || kind == Get then old(db)
                       else if kind == Put then old(db)[key := value]
                       else old(db)[key := (if key in old(db) then old(db)[key] else "") + value]
      ensures var Op(key, value, kind, id, seqNo) := m.command;
              var listening := id in old(callBack) && old(callBack)[id] == CallBack(true, seqNo);
              callBack == (if listening then old(callBack)[id := CallBack(false, seqNo)] else old(callBack))
              && answer == if !listening then None else if kind == Get && key in old(db) then Some(old(db)[key]) else Some("")
      ensures var full := maxraftstate != -1 && stateSize >= maxraftstate;
              cut == (if full then Some(m.index) else None)
              && persister.snapshot == if full then Some(Store(db, seqCheck)) else old(persister.snapshot)
    {
      var Op(key, value, kind, id, seqNo) := m.command;
      var exec, callback := true, true;
      answer, cut := None, None;
      if id in seqCheck && seqNo < seqCheck[id] + 1 {
        exec := false;
      } else {
        seqCheck := seqCheck[id := seqNo];
      }
      if id !in callBack {
        callback := false;
      } else {
        if seqNo != callBack[id].wantSeq { callback := false; }
        if !callBack[id].listen {
          callback := false;
        } else if callback {
          callBack := callBack[id := callBack[id].(listen := false)];
        }
      }
      if kind == Get {
        if callback { answer := Some(Lookup(db, key)); }
      } else if kind == Put {
        if exec { db := db[key := value]; }
        if callback { answer := Some(""); }
      } else {
        if exec { db := db[key := Lookup(db, key) + value]; }
        if callback { answer := Some(""); }
      }
      if maxraftstate != -1 && stateSize >= maxraftstate {
        persister.SaveSnapshot(Store(db, seqCheck));
        cut := Some(m.index);
      }
    }
  }

  // ----- the clerk -----

  /** What one RPC brings: no reply, a refusal, or an answer. */
  datatype Outcome = Lost | WrongLeader | Answered(value: string)

  datatype Attempt = Attempt(server: nat, op: Operation)

  /** How many attempts precede the first answer. */
  function Failures(outcomes: seq<Outcome>): (n: nat)
    ensures n <= |outcomes| && (n < |outcomes| ==> outcomes[n].Answered?)
    ensures forall k :: 0 <= k < n ==> !outcomes[k].Answered?
  {
    if outcomes == [] || outcomes[0].Answered? then 0 else 1 + Failures(outcomes[1..])
  }

  lemma {:induction false} FailuresAre(outcomes: seq<Outcome>, n: nat)
    requires n < |outcomes| && outcomes[n].Answered?
    requires forall k :: 0 <= k < n ==> !outcomes[k].Answered?
    ensures Failures(outcomes) == n
  {
    if n > 0 { FailuresAre(outcomes[1..], n - 1); }
  }

  class Clerk {
    const id: nat
    const servers: nat
    var leader: int
    var number: int              // of its next call

    ghost predicate Valid()
      reads this
    {
      -1 <= leader < servers
    }

    constructor MakeClerk(id: nat, servers: nat)
      requires servers > 0
      ensures Valid() && this.id == id && this.servers == servers && leader == -1 && number == 0
    {
      this.id, this.servers, leader, number := id, servers, -1, 0;
    }

    /** The retry loop that Get and PutAppend share, run until the outcomes the network has in store
        are used up.  Every attempt of a call carries the same operation, numbered once; the call
        ends with the first answer and remembers who gave it. */
    method Call(key: string, value: string, kind: OpKind, random: seq<nat>, outcomes: seq<Outcome>)
      returns (result: Option<string>, attempts: seq<Attempt>)
      requires Valid() && servers > 0 && |random| == |outcomes|
      modifies this
      ensures Valid() && number == old(number) + 1
      ensures result == if Failures(outcomes) < |outcomes| then Some(outcomes[Failures(outcomes)].value) else None
      ensures |attempts| == if result.Some? then Failures(outcomes) + 1 else |outcomes|
      ensures if result.Some? then
                0 < |attempts| <= |outcomes| && outcomes[|attempts| - 1] == Answered(result.value)
                && forall k :: 0 <= k < |attempts| - 1 ==> !outcomes[k].Answered?
              else forall k :: 0 <= k < |outcomes| ==> !outcomes[k].Answered?
      ensures forall k :: 0 <= k < |attempts| ==>
                attempts[k].op == Invoked(id, old(number), key, value, kind) && attempts[k].server < servers
      ensures forall k :: 0 <= k < |attempts| ==>
                attempts[k].op == Op(key, if kind == Get then "" else value, kind, id, old(number))
      ensures |attempts| > 0 && old(leader) != -1 ==> attempts[0].server == old(leader)
      ensures forall k :: 0 < k < |attempts| ==> attempts[k].server == random[k] % servers
      ensures outcomes != [] ==> leader == if result.Some? then attempts[|attempts| - 1].server else -1
    {
      var op := Invoked(id, number, key, value, kind);
      number := number + 1;
      attempts := [];
      var k := 0;
      while k < |outcomes|
        invariant 0 <= k <= |outcomes| && k == |attempts| && Valid()
        invariant number == old(number) + 1
        invariant k == 0 ==> leader == old(leader)
        invariant k > 0 ==> leader == -1
        invariant forall j :: 0 <= j < k ==> !outcomes[j].Answered?
        invariant forall j :: 0 <= j < k ==> attempts[j].op == op && attempts[j].server < servers
        invariant k > 0 && old(leader) != -1 ==> attempts[0].server == old(leader)
        invariant forall j :: 0 < j < k ==> attempts[j].server == random[j] % servers
      {
        var addr: nat := if leader == -1 then random[k] % servers else leader;
        attempts := attempts + [Attempt(addr, op)];
        if outcomes[k].Answered? {
          leader := addr;
          FailuresAre(outcomes, k);
          return Some(outcomes[k].value), attempts;
        }
        leader := -1;
        k := k + 1;
      }
      return None, attempts;
    }
  }
}
