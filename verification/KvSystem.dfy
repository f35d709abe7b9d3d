/** Clerks and store servers around one committed log.  Each step is one region the service runs
    under a lock; the log only grows, servers follow it at their own pace, crash, and come back from
    a snapshot.  That one such log exists is what KvOnRaft proves of Raft. */
module KvSystem {
  import opened Commands
  import opened Kv

  // ----- one server -----

  datatype CallBack = CallBack(listen: bool, wantSeq: int)

  /** What the apply loop and the handlers of one server share. */
  datatype Replica = Replica(store: Store, callBack: map<int, CallBack>)

  /** A turn of the apply loop signals the client's channel when somebody listens for this very seq. */
  predicate Answers(callBack: map<int, CallBack>, op: Operation) {
    op.clientId in callBack && callBack[op.clientId].listen && callBack[op.clientId].wantSeq == op.clientSeq
  }

  /** What it sends there; a Get reads the store as it is now, executed or not. */
  function Answer(store: Store, op: Operation): string {
    Output(store.db, op)
  }

  function Turn(r: Replica, op: Operation): Replica {
    Replica(ApplyOp(r.store, op),
            if Answers(r.callBack, op) then r.callBack[op.clientId := CallBack(false, op.clientSeq)] else r.callBack)
  }

  /** listenCallBack, after the handler has made sure the client has an entry. */
  function Listening(r: Replica, op: Operation): Replica {
    r.(callBack := r.callBack[op.clientId := CallBack(true, op.clientSeq)])
  }

  function Unlistening(r: Replica, id: int): Replica
    requires id in r.callBack
  {
    r.(callBack := r.callBack[id := r.callBack[id].(listen := false)])
  }

  /** A saved store, and how many entries of the log it reflects. */
  datatype Saved = Saved(store: Store, covers: nat)

  datatype Server = Server(
    replica: Replica,
    delivered: nat,                  // the Raft index of the last entry handed over
    covered: nat,                    // history: how many entries the store reflects
    waiting: multiset<Operation>,    // handlers receiving from their client's channel
    snapshot: Option<Saved>,
    cuts: set<nat>,                  // calls of Compaction not yet run
    base: nat,                       // where Raft's saved log starts; 0 before any compaction
    last: nat)                       // the last cut of this incarnation, which Raft does not save

  // ----- the clerks -----

  /** A call in progress; `invokedAt` and `after` are history: how long the log was, and how many
      calls had completed, when it began. */
  datatype Call = Call(op: Operation, invokedAt: nat, after: nat)

  datatype Clerk = Clerk(next: int, pending: Option<Call>)

  /** A successful reply on its way, and (history) how many entries the answering store reflected. */
  datatype Reply = Reply(op: Operation, value: string, point: nat)

  /** A completed call, its result and the point where it takes effect. */
  datatype Done = Done(call: Call, value: string, point: nat)

  datatype State = State(
    log: seq<Operation>,             // what Raft has committed
    requests: set<Operation>,        // every operation ever invoked; any may reach any server at any time
    clerks: seq<Clerk>,
    servers: seq<Server>,
    replies: set<Reply>,
    done: seq<Done>)

  datatype Step =
    | Invoke(c: nat, key: string, value: string, kind: OpKind)   // Clerk.Get, Clerk.PutAppend
    | Commit(op: Operation)                                      // Raft, some time after a handler's Start
    | Listen(i: nat, op: Operation)                              // listenCallBack, then the select
    | Timeout(i: nat, op: Operation)                             // the select's other branch
    | Deliver(i: nat, to: Operation, full: bool)                 // one turn of the apply loop
    | Cut(i: nat, index: nat)                                    // Compaction
    | Return(c: nat, reply: Reply)                               // the clerk gets its answer
    | Restart(i: nat)                                            // ShutdownServer and StartServer

  function Init(clerks: nat, servers: nat): State {
    State([], {}, seq(clerks, i => Clerk(0, None)),
          seq(servers, i => Server(Replica(EMPTY_STORE, map[]), 0, 0, multiset{}, None, {}, 0, 0)), {}, [])
  }

  function Invoked(c: nat, number: int, key: string, value: string, kind: OpKind): Operation {
    Op(key, if kind == Get then "" else value, kind, c, number)
  }

  predicate Enabled(s: State, step: Step) {
    match step
    case Invoke(c, _, _, _) => c < |s.clerks| && s.clerks[c].pending == None
    case Commit(op) => op in s.requests
    case Listen(i, op) => i < |s.servers| && op in s.requests
    case Timeout(i, op) =>
      i < |s.servers| && op in s.servers[i].waiting && op.clientId in s.servers[i].replica.callBack
    case Deliver(i, to, _) =>
      i < |s.servers| && s.servers[i].delivered < |s.log|
      && var op := s.log[s.servers[i].delivered];
         Answers(s.servers[i].replica.callBack, op) ==> to in s.servers[i].waiting && to.clientId == op.clientId
    case Cut(i, index) => i < |s.servers| && index in s.servers[i].cuts
    case Return(c, reply) =>
      c < |s.clerks| && reply in s.replies && s.clerks[c].pending.Some? && s.clerks[c].pending.value.op == reply.op
    case Restart(i) => i < |s.servers|
  }

  /** How many entries the first `k` hold before the first copy of `op`; k if there is none. */
  function FirstAt(log: seq<Operation>, op: Operation, k: nat): (n: nat)
    requires k <= |log|
    ensures n <= k && op !in log[..n] && (n < k ==> log[n] == op) && (n == k ==> op !in log[..k])
  {
    if k == 0 then 0
    else
      var n := FirstAt(log, op, k - 1);
      if n < k - 1 || log[k - 1] == op then n else k
  }

  /** Where a completed operation takes effect: a Get where its answer was read, the others at
      their first application. */
  function PointOf(log: seq<Operation>, reply: Reply): nat {
    if reply.op.kind == Get then reply.point else FirstAt(log, reply.op, |log|) + 1
  }

  function DeliverTo(srv: Server, op: Operation, to: Operation, full: bool): Server {
    var replica := Turn(srv.replica, op);
    var index := srv.delivered + 1;
    var covered := if index > srv.covered then index else srv.covered;
    var t := srv.(replica := replica, delivered := index, covered := covered,
                  waiting := if Answers(srv.replica.callBack, op) then srv.waiting - multiset{to} else srv.waiting);
    if full then t.(snapshot := Some(Saved(replica.store, covered)), cuts := t.cuts + {index}) else t
  }

  function Recovered(srv: Server): Server {
    var (store, covers) := match srv.snapshot case None => (EMPTY_STORE, 0) case Some(d) => (d.store, d.covers);
    Server(Replica(store, map[]), if srv.base == 0 then 0 else srv.base - 1, covers, multiset{}, srv.snapshot, {}, srv.base, 0)
  }

  function Do(s: State, step: Step): State
    requires Enabled(s, step)
  {
    match step
    case Invoke(c, key, value, kind) =>
      var clerk := s.clerks[c];
      var op := Invoked(c, clerk.next, key, value, kind);
      s.(requests := s.requests + {op},
         clerks := s.clerks[c := Clerk(clerk.next + 1, Some(Call(op, |s.log|, |s.done|)))])
    case Commit(op) => s.(log := s.log + [op])
    case Listen(i, op) =>
      var srv := s.servers[i];
      s.(servers := s.servers[i := srv.(replica := Listening(srv.replica, op), waiting := srv.waiting + multiset{op})])
    case Timeout(i, op) =>
      var srv := s.servers[i];
      s.(servers := s.servers[i := srv.(replica := Unlistening(srv.replica, op.clientId),
                                        waiting := srv.waiting - multiset{op})])
    case Deliver(i, to, full) =>
      var srv := s.servers[i];
      var op := s.log[srv.delivered];
      var t := DeliverTo(srv, op, to, full);
      s.(servers := s.servers[i := t],
         replies := if Answers(srv.replica.callBack, op)
                    then s.replies + {Reply(to, Answer(t.replica.store, op), t.covered)} else s.replies)
    case Cut(i, index) =>
      var srv := s.servers[i];
      s.(servers := s.servers[i := if index <= srv.last then srv.(cuts := srv.cuts - {index})
                                   else srv.(cuts := srv.cuts - {index}, base := index, last := index)])
    case Return(c, reply) =>
      var clerk := s.clerks[c];
      s.(clerks := s.clerks[c := clerk.(pending := None)],
         done := s.done + [Done(clerk.pending.value, reply.value, PointOf(s.log, reply))])
    case Restart(i) => s.(servers := s.servers[i := Recovered(s.servers[i])])
  }

  /** The clerk is still waiting for this operation. */
  predicate Pending(s: State, r: Operation) {
    0 <= r.clientId < |s.clerks| && s.clerks[r.clientId].pending.Some? && s.clerks[r.clientId].pending.value.op == r
  }

  /** A handler that receives for a call its clerk still waits for, and would be overtaken by one that
      starts listening for an older operation of the same clerk. */
  predicate Overtaken(s: State, i: nat, op: Operation, w: Operation)
    requires i < |s.servers|
  {
    w in s.servers[i].waiting && w.clientId == op.clientId && Pending(s, w) && w.clientSeq > op.clientSeq
  }

  /** No handler overtakes one of a call in progress. */
  predicate InOrder(s: State, step: Step) {
    step.Listen? && step.i < |s.servers| ==>
      forall w :: w in s.servers[step.i].waiting ==> !Overtaken(s, step.i, step.op, w)
  }

  ghost predicate Next(s: State, step: Step, t: State) {
    Enabled(s, step) && t == Do(s, step)
  }

  ghost predicate Run(clerks: nat, servers: nat, states: seq<State>, steps: seq<Step>) {
    |states| == |steps| + 1 && states[0] == Init(clerks, servers)
    && forall k :: 0 <= k < |steps| ==> Next(states[k], steps[k], states[k + 1])
  }

  ghost predicate OrderedRun(clerks: nat, servers: nat, states: seq<State>, steps: seq<Step>) {
    Run(clerks, servers, states, steps) && forall k :: 0 <= k < |steps| ==> InOrder(states[k], steps[k])
  }
}
