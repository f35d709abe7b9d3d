/** Every step of an in-order run keeps the invariant. */
module KvSteps {
  import opened Commands
  import opened Kv
  import opened KvSystem
  import opened KvInv

  // ----- Invoke -----

  lemma InvokeRequests(s: State, c: nat, key: string, value: string, kind: OpKind)
    requires Enabled(s, Invoke(c, key, value, kind)) && RequestsOk(s)
    ensures RequestsOk(Do(s, Invoke(c, key, value, kind)))
    ensures Invoked(c, s.clerks[c].next, key, value, kind) !in s.requests
  {
    var op := Invoked(c, s.clerks[c].next, key, value, kind);
    assert op in s.requests ==> RequestOk(s, op);
    var t := Do(s, Invoke(c, key, value, kind));
    forall r | r in t.requests ensures RequestOk(t, r) {
      if r != op { assert RequestOk(s, r); }
    }
    forall a, b | a in t.requests && b in t.requests && SameCall(a, b) ensures a == b {
      if a != op { assert RequestOk(s, a); }
      if b != op { assert RequestOk(s, b); }
    }
  }

  lemma InvokeLog(s: State, c: nat, key: string, value: string, kind: OpKind)
    requires Enabled(s, Invoke(c, key, value, kind)) && RequestsOk(s) && LogInOrder(s)
    ensures LogInOrder(Do(s, Invoke(c, key, value, kind)))
  {
    var op := Invoked(c, s.clerks[c].next, key, value, kind);
    var t := Do(s, Invoke(c, key, value, kind));
    forall r | r in t.requests ensures r in t.log || Pending(t, r) {
      if r != op { assert r in s.log || Pending(s, r); }
    }
    forall k | 0 <= k < |t.log| ensures EarlierIn(t.requests, t.log, k) {
      assert RequestOk(s, s.log[k]) && EarlierIn(s.requests, s.log, k);
    }
  }

  lemma InvokeDone(s: State, c: nat, key: string, value: string, kind: OpKind)
    requires Enabled(s, Invoke(c, key, value, kind)) && RequestsOk(s) && LogInOrder(s) && PendingOk(s) && AllDoneOk(s)
    ensures PendingOk(Do(s, Invoke(c, key, value, kind))) && AllDoneOk(Do(s, Invoke(c, key, value, kind)))
  {
    var op := Invoked(c, s.clerks[c].next, key, value, kind);
    var t := Do(s, Invoke(c, key, value, kind));
    InvokeRequests(s, c, key, value, kind);
    forall k | 0 <= k < |t.done| ensures DoneOk(t, t.done[k]) && t.done[k].call.after <= k {
      assert DoneOk(s, s.done[k]);
    }
    forall j, k | 0 <= j < |t.done| && 0 <= k < |t.done| ensures DistinctAt(t.done, j, k) {
      assert DistinctAt(s.done, j, k);
    }
    forall d | 0 <= d < |t.clerks| && t.clerks[d].pending.Some? ensures CallOk(t, t.clerks[d].pending.value) {
      if d == c {
        assert op !in s.log;
        assert forall j :: 0 <= j < |s.done| ==> DoneOk(s, s.done[j]);
      } else {
        assert CallOk(s, s.clerks[d].pending.value);
      }
    }
  }

  lemma InvokeAccounted(s: State, c: nat, key: string, value: string, kind: OpKind)
    requires Enabled(s, Invoke(c, key, value, kind)) && Accounted(s)
    ensures Accounted(Do(s, Invoke(c, key, value, kind)))
  {
    var t := Do(s, Invoke(c, key, value, kind));
    forall r | r in t.requests ensures Pending(t, r) || exists k :: Completed(t.done, k, r) {
      if r in s.requests && !Pending(s, r) {
        var k :| Completed(s.done, k, r);
        assert Completed(t.done, k, r);
      }
    }
  }

  lemma InvokeKeeps(s: State, c: nat, key: string, value: string, kind: OpKind)
    requires Inv(s) && Enabled(s, Invoke(c, key, value, kind))
    ensures Inv(Do(s, Invoke(c, key, value, kind)))
  {
    InvokeRequests(s, c, key, value, kind);
    InvokeLog(s, c, key, value, kind);
    InvokeDone(s, c, key, value, kind);
    InvokeAccounted(s, c, key, value, kind);
    var t := Do(s, Invoke(c, key, value, kind));
    forall r | r in t.replies ensures r.op in t.requests && (!Pending(t, r.op) || Right(t.log, r.op, r.value, r.point)) {
      assert r in s.replies;
    }
    forall i | 0 <= i < |t.servers| ensures WaitingOk(t, t.servers[i]) {
      assert WaitingOk(s, s.servers[i]);
    }
  }

  /** A step that makes no earlier operation pending leaves the other servers in order. */
  lemma WaitingStays(s: State, t: State)
    requires AllWaitingOk(s) && s.requests <= t.requests && |t.servers| == |s.servers|
    requires forall r :: r in s.requests && Pending(t, r) ==> Pending(s, r)
    ensures forall i :: 0 <= i < |s.servers| ==> WaitingOk(t, s.servers[i])
  {
    forall i | 0 <= i < |s.servers| ensures WaitingOk(t, s.servers[i]) {
      assert WaitingOk(s, s.servers[i]);
    }
  }

  // ----- Commit -----

  lemma RightLater(log: seq<Operation>, op: Operation, r: Operation, value: string, point: nat)
    requires Right(log, r, value, point)
    ensures Right(log + [op], r, value, point)
  {
    assert (log + [op])[..point] == log[..point];
  }

  lemma StoreLater(log: seq<Operation>, op: Operation, srv: Server)
    requires StoreOk(log, srv)
    ensures StoreOk(log + [op], srv)
  {
    assert (log + [op])[..srv.covered] == log[..srv.covered];
    if srv.snapshot.Some? {
      var k := srv.snapshot.value.covers;
      assert (log + [op])[..k] == log[..k];
    }
  }

  lemma CommitLog(s: State, op: Operation)
    requires Enabled(s, Commit(op)) && RequestsOk(s) && LogInOrder(s)
    ensures LogInOrder(Do(s, Commit(op)))
  {
    var t := Do(s, Commit(op));
    forall k | 0 <= k < |t.log| ensures EarlierIn(t.requests, t.log, k) {
      if k < |s.log| {
        assert EarlierIn(s.requests, s.log, k) && t.log[..k] == s.log[..k];
      } else {
        assert t.log[..k] == s.log;
        forall r | r in t.requests && r.clientId == op.clientId && r.clientSeq < op.clientSeq ensures r in s.log {
          assert RequestOk(s, op);
          assert !Pending(s, r);
        }
      }
    }
  }

  lemma DoneLater(s: State, op: Operation, d: Done)
    requires DoneOk(s, d)
    ensures DoneOk(s.(log := s.log + [op]), d)
  {
    var t := s.(log := s.log + [op]);
    CallLater(s, op, d.call);
    assert t.log[..d.point - 1] == s.log[..d.point - 1];
    if d.call.op.kind == Get { RightLater(s.log, op, d.call.op, d.value, d.point); }
  }

  lemma CallLater(s: State, op: Operation, call: Call)
    requires CallOk(s, call)
    ensures CallOk(s.(log := s.log + [op]), call)
  {
    assert (s.log + [op])[..call.invokedAt] == s.log[..call.invokedAt];
  }

  lemma CommitKeeps(s: State, op: Operation)
    requires Inv(s) && Enabled(s, Commit(op))
    ensures Inv(Do(s, Commit(op)))
  {
    hide StoreOk, Right, CallOk, WaitingOk;
    var t := Do(s, Commit(op));
    CommitLog(s, op);
    WaitingStays(s, t);
    forall i | 0 <= i < |t.servers| ensures StoreOk(t.log, t.servers[i]) {
      StoreLater(s.log, op, s.servers[i]);
    }
    forall r | r in t.replies ensures r.op in t.requests && (!Pending(t, r.op) || Right(t.log, r.op, r.value, r.point)) {
      if Pending(s, r.op) { RightLater(s.log, op, r.op, r.value, r.point); }
    }
    forall c | 0 <= c < |t.clerks| && t.clerks[c].pending.Some? ensures CallOk(t, t.clerks[c].pending.value) {
      CallLater(s, op, s.clerks[c].pending.value);
    }
    forall k | 0 <= k < |t.done| ensures DoneOk(t, t.done[k]) && t.done[k].call.after <= k {
      DoneLater(s, op, s.done[k]);
    }
    assert Accounted(t) by {
      forall r | r in t.requests ensures Pending(t, r) || exists k :: Completed(t.done, k, r) {
        assert Pending(s, r) || exists k :: Completed(s.done, k, r);
      }
    }
    forall j, k | 0 <= j < |t.done| && 0 <= k < |t.done| ensures DistinctAt(t.done, j, k) {
      assert DistinctAt(s.done, j, k);
    }
  }

  // ----- the servers -----

  /** Only server i and the replies changed. */
  lemma ServerKeeps(s: State, i: nat, srv: Server, replies: set<Reply>)
    requires Inv(s) && i < |s.servers| && StoreOk(s.log, srv) && WaitingOk(s, srv)
    requires forall r :: r in replies ==> r.op in s.requests && (!Pending(s, r.op) || Right(s.log, r.op, r.value, r.point))
    ensures Inv(s.(servers := s.servers[i := srv], replies := replies))
  {
    hide StoreOk, Right, CallOk, WaitingOk, RequestsOk, LogInOrder, Accounted;
    var t := s.(servers := s.servers[i := srv], replies := replies);
    SameLogAndClerks(s, t);
    WaitingStays(s, t);
    assert WaitingOk(t, srv) by { SameWaiting(s, t, srv); }
    forall k | 0 <= k < |t.done| ensures DoneOk(t, t.done[k]) && t.done[k].call.after <= k {
      assert DoneOk(s, s.done[k]);
      SameCalls(s, t, s.done[k].call);
    }
    forall c | 0 <= c < |t.clerks| && t.clerks[c].pending.Some? ensures CallOk(t, t.clerks[c].pending.value) {
      SameCalls(s, t, s.clerks[c].pending.value);
    }
    forall j, k | 0 <= j < |t.done| && 0 <= k < |t.done| ensures DistinctAt(t.done, j, k) {
      assert DistinctAt(s.done, j, k);
    }
  }

  lemma SameWaiting(s: State, t: State, srv: Server)
    requires t == s.(servers := t.servers, replies := t.replies) && WaitingOk(s, srv)
    ensures WaitingOk(t, srv)
  {
    forall w | w in srv.waiting ensures Pending(t, w) ==> Pending(s, w) {
    }
  }

  lemma SameCalls(s: State, t: State, call: Call)
    requires t == s.(servers := t.servers, replies := t.replies) && CallOk(s, call)
    ensures CallOk(t, call)
  {
  }

  lemma SameLogAndClerks(s: State, t: State)
    requires t == s.(servers := t.servers, replies := t.replies) && RequestsOk(s) && LogInOrder(s) && Accounted(s)
    ensures RequestsOk(t) && LogInOrder(t) && Accounted(t)
  {
    forall r | r in t.requests ensures RequestOk(t, r) { assert RequestOk(s, r); }
    forall r | r in t.requests ensures r in t.log || Pending(t, r) { assert r in s.log || Pending(s, r); }
    forall k | 0 <= k < |t.log| ensures EarlierIn(t.requests, t.log, k) { assert EarlierIn(s.requests, s.log, k); }
    forall r | r in t.requests ensures Pending(t, r) || exists k :: Completed(t.done, k, r) {
      assert Pending(s, r) || exists k :: Completed(s.done, k, r);
    }
  }

  lemma ListenKeeps(s: State, i: nat, op: Operation)
    requires Inv(s) && Enabled(s, Listen(i, op)) && InOrder(s, Listen(i, op))
    ensures Inv(Do(s, Listen(i, op)))
  {
    hide RequestsOk, LogInOrder, AllDoneOk, PendingOk, Accounted, Right, Pending;
    var srv := Do(s, Listen(i, op)).servers[i];
    assert StoreOk(s.log, s.servers[i]) && WaitingOk(s, s.servers[i]);
    ServerKeeps(s, i, srv, s.replies);
  }

  lemma TimeoutKeeps(s: State, i: nat, op: Operation)
    requires Inv(s) && Enabled(s, Timeout(i, op))
    ensures Inv(Do(s, Timeout(i, op)))
  {
    hide RequestsOk, LogInOrder, AllDoneOk, PendingOk, Accounted, Right, Pending;
    var srv := Do(s, Timeout(i, op)).servers[i];
    assert StoreOk(s.log, s.servers[i]) && WaitingOk(s, s.servers[i]);
    ServerKeeps(s, i, srv, s.replies);
  }

  lemma CutKeeps(s: State, i: nat, index: nat)
    requires Inv(s) && Enabled(s, Cut(i, index))
    ensures Inv(Do(s, Cut(i, index)))
  {
    hide RequestsOk, LogInOrder, AllDoneOk, PendingOk, Accounted, Right, Pending;
    var srv := Do(s, Cut(i, index)).servers[i];
    assert StoreOk(s.log, s.servers[i]) && WaitingOk(s, s.servers[i]);
    ServerKeeps(s, i, srv, s.replies);
  }

  lemma RestartKeeps(s: State, i: nat)
    requires Inv(s) && Enabled(s, Restart(i))
    ensures Inv(Do(s, Restart(i)))
  {
    hide RequestsOk, LogInOrder, AllDoneOk, PendingOk, Accounted, Right, Pending;
    var srv := Do(s, Restart(i)).servers[i];
    assert StoreOk(s.log, s.servers[i]);
    assert s.log[..0] == [];
    ServerKeeps(s, i, srv, s.replies);
  }

  /** Handing over the next entry brings the store to the replay of all entries up to there, or
      leaves it if it was ahead already. */
  lemma NextEntry(log: seq<Operation>, covered: nat, index: nat)
    requires index < |log| && covered <= |log| && index <= covered
    ensures ApplyOp(Replay(EMPTY_STORE, log[..covered]), log[index])
            == Replay(EMPTY_STORE, log[..if index + 1 > covered then index + 1 else covered])
  {
    if index < covered {
      PrefixSeen(log, covered, index, index + 1);
      assert !Executes(Replay(EMPTY_STORE, log[..covered]), log[index..index + 1][0]);
    } else {
      assert log[..index + 1][..index] == log[..index];
    }
  }

  lemma DeliverStore(log: seq<Operation>, srv: Server, to: Operation, full: bool)
    requires StoreOk(log, srv) && srv.delivered < |log|
    ensures StoreOk(log, DeliverTo(srv, log[srv.delivered], to, full))
    ensures log[srv.delivered] in log[..DeliverTo(srv, log[srv.delivered], to, full).covered]
  {
    NextEntry(log, srv.covered, srv.delivered);
    var t := DeliverTo(srv, log[srv.delivered], to, full);
    assert log[..t.covered][srv.delivered] == log[srv.delivered];
  }

  lemma DeliverWaiting(s: State, srv: Server, op: Operation, to: Operation, full: bool)
    requires WaitingOk(s, srv)
    ensures WaitingOk(s, DeliverTo(srv, op, to, full))
  {
  }

  /** The answer of this turn, if any, is right for the operation applied, and goes to a handler
      of that operation or of one its clerk no longer waits for. */
  lemma DeliverReplies(s: State, i: nat, to: Operation, full: bool, r: Reply)
    requires Enabled(s, Deliver(i, to, full)) && StoreOk(s.log, s.servers[i]) && WaitingOk(s, s.servers[i])
    requires RequestsOk(s) && LogInOrder(s) && Answers(s.servers[i].replica.callBack, s.log[s.servers[i].delivered])
    requires var op := s.log[s.servers[i].delivered]; var t := DeliverTo(s.servers[i], op, to, full);
             r == Reply(to, Answer(t.replica.store, op), t.covered)
    ensures to in s.requests && (!Pending(s, to) || Right(s.log, to, r.value, r.point))
  {
    hide StoreOk, Right, Answer, DeliverTo;
    var op := s.log[s.servers[i].delivered];
    DeliverStore(s.log, s.servers[i], to, full);
    if Pending(s, to) {
      LatestCall(s, to, op);
      NowRight(s.log, s.servers[i], to, full);
    }
  }

  /** A pending operation is its clerk's last, so a waiting one whose number is not above that of an
      operation of the same clerk is that operation. */
  lemma LatestCall(s: State, to: Operation, op: Operation)
    requires RequestsOk(s) && Pending(s, to) && op in s.requests && to.clientId == op.clientId && to.clientSeq <= op.clientSeq
    ensures to == op
  {
    assert RequestOk(s, op);
    assert SameCall(to, op);
  }

  lemma NowRight(log: seq<Operation>, srv: Server, to: Operation, full: bool)
    requires StoreOk(log, srv) && srv.delivered < |log| && to == log[srv.delivered]
    ensures var t := DeliverTo(srv, to, to, full); Right(log, to, Answer(t.replica.store, to), t.covered)
  {
    DeliverStore(log, srv, to, full);
  }

  lemma DeliverKeeps(s: State, i: nat, to: Operation, full: bool)
    requires Inv(s) && Enabled(s, Deliver(i, to, full))
    ensures Inv(Do(s, Deliver(i, to, full)))
  {
    hide StoreOk, WaitingOk, RequestsOk, LogInOrder, Right, DeliverTo, Answer, AllDoneOk, PendingOk, Accounted;
    var t := Do(s, Deliver(i, to, full));
    var srv := s.servers[i];
    var op := s.log[srv.delivered];
    DeliverStore(s.log, srv, to, full);
    DeliverWaiting(s, srv, op, to, full);
    forall r | r in t.replies ensures r.op in s.requests && (!Pending(s, r.op) || Right(s.log, r.op, r.value, r.point)) {
      if r !in s.replies { DeliverReplies(s, i, to, full, r); }
    }
    ServerKeeps(s, i, t.servers[i], t.replies);
  }

  // ----- Return -----

  /** The answer a clerk takes is right. */
  lemma ReturnedIsRight(s: State, c: nat, reply: Reply)
    requires Enabled(s, Return(c, reply)) && RequestsOk(s) && RepliesOk(s)
    ensures reply.op in s.requests && Right(s.log, reply.op, reply.value, reply.point) && reply.op in s.log
    ensures Pending(s, reply.op)
  {
    assert s.log[..reply.point] <= s.log;
  }

  lemma ReturnRequests(s: State, c: nat, reply: Reply)
    requires Enabled(s, Return(c, reply)) && RequestsOk(s) && LogInOrder(s) && reply.op in s.log
    ensures RequestsOk(Do(s, Return(c, reply))) && LogInOrder(Do(s, Return(c, reply)))
  {
    var t := Do(s, Return(c, reply));
    forall r | r in t.requests ensures RequestOk(t, r) { assert RequestOk(s, r); }
    forall r | r in t.requests ensures r in t.log || Pending(t, r) { assert r in s.log || Pending(s, r); }
    forall k | 0 <= k < |t.log| ensures EarlierIn(t.requests, t.log, k) { assert EarlierIn(s.requests, s.log, k); }
  }

  lemma PointsStay(done: seq<Done>, d: Done, after: nat, bound: nat)
    requires PointsBefore(done, after, bound)
    ensures PointsBefore(done + [d], after, bound)
  {
  }

  lemma ReturnCalls(s: State, c: nat, reply: Reply, call: Call)
    requires Enabled(s, Return(c, reply)) && CallOk(s, call)
    ensures CallOk(Do(s, Return(c, reply)), call)
  {
    PointsStay(s.done, Do(s, Return(c, reply)).done[|s.done|], call.after, call.invokedAt);
  }

  lemma NotBefore(log: seq<Operation>, at: nat, op: Operation, k: nat)
    requires at <= |log| && op !in log[..at]
    ensures k < |log| && log[k] == op ==> at <= k
  {
    assert forall i :: 0 <= i < at ==> log[..at][i] == log[i];
  }

  /** The completed call takes effect after its invocation. */
  lemma NewlyDone(s: State, c: nat, reply: Reply)
    requires Enabled(s, Return(c, reply)) && Right(s.log, reply.op, reply.value, reply.point)
    requires reply.op in s.requests && CallOk(s, s.clerks[c].pending.value)
    requires reply.op.clientId == c
    ensures var t := Do(s, Return(c, reply)); DoneOk(t, t.done[|s.done|])
  {
    var t, op, call := Do(s, Return(c, reply)), reply.op, s.clerks[c].pending.value;
    var k := FirstAt(s.log, op, |s.log|);
    var j :| 0 <= j < |s.log[..reply.point]| && s.log[..reply.point][j] == op;
    assert s.log[j] == op;
    NotBefore(s.log, call.invokedAt, op, j);
    NotBefore(s.log, call.invokedAt, op, k);
    ReturnCalls(s, c, reply, call);
  }

  lemma ReturnDone(s: State, c: nat, reply: Reply)
    requires Inv(s) && Enabled(s, Return(c, reply))
    ensures AllDoneOk(Do(s, Return(c, reply)))
  {
    hide StoresOk, AllWaitingOk, Right, LogInOrder;
    var t, n := Do(s, Return(c, reply)), |s.done|;
    ReturnedIsRight(s, c, reply);
    assert CallOk(s, s.clerks[c].pending.value);
    NewlyDone(s, c, reply);
    forall k | 0 <= k < |t.done| ensures DoneOk(t, t.done[k]) && t.done[k].call.after <= k {
      if k < n {
        assert DoneOk(s, s.done[k]);
        ReturnCalls(s, c, reply, s.done[k].call);
      }
    }
    forall j, k | 0 <= j < |t.done| && 0 <= k < |t.done| ensures DistinctAt(t.done, j, k) {
      if j < n { assert DoneOk(s, s.done[j]); }
      if k < n { assert DoneOk(s, s.done[k]); }
      if j < n && k < n { assert DistinctAt(s.done, j, k); }
    }
  }

  lemma ReturnAccounted(s: State, c: nat, reply: Reply)
    requires Enabled(s, Return(c, reply)) && Accounted(s)
    ensures Accounted(Do(s, Return(c, reply)))
  {
    var t := Do(s, Return(c, reply));
    assert t.done[|s.done|].call.op == reply.op;
    forall r | r in t.requests ensures Pending(t, r) || exists k :: Completed(t.done, k, r) {
      if !Pending(s, r) {
        var k :| Completed(s.done, k, r);
        assert Completed(t.done, k, r);
      } else if r.clientId == c {
        assert Completed(t.done, |s.done|, r);
      }
    }
  }

  lemma ReturnKeeps(s: State, c: nat, reply: Reply)
    requires Inv(s) && Enabled(s, Return(c, reply))
    ensures Inv(Do(s, Return(c, reply)))
  {
    hide StoreOk, WaitingOk, Right, AllDoneOk, RequestsOk, LogInOrder, CallOk, Accounted;
    ReturnAccounted(s, c, reply);
    var t := Do(s, Return(c, reply));
    WaitingStays(s, t);
    ReturnedIsRight(s, c, reply);
    ReturnRequests(s, c, reply);
    ReturnDone(s, c, reply);
    forall r | r in t.replies ensures r.op in t.requests && (!Pending(t, r.op) || Right(t.log, r.op, r.value, r.point)) {
      assert r in s.replies;
    }
    forall d | 0 <= d < |t.clerks| && t.clerks[d].pending.Some? ensures CallOk(t, t.clerks[d].pending.value) {
      ReturnCalls(s, c, reply, s.clerks[d].pending.value);
    }
  }

  // ----- runs -----

  lemma StepKeeps(s: State, step: Step)
    requires Inv(s) && Enabled(s, step) && InOrder(s, step)
    ensures Inv(Do(s, step))
  {
    hide Inv, Do, Enabled, InOrder;
    match step
    case Invoke(c, key, value, kind) => InvokeKeeps(s, c, key, value, kind);
    case Commit(op) => CommitKeeps(s, op);
    case Listen(i, op) => ListenKeeps(s, i, op);
    case Timeout(i, op) => TimeoutKeeps(s, i, op);
    case Deliver(i, to, full) => DeliverKeeps(s, i, to, full);
    case Cut(i, index) => CutKeeps(s, i, index);
    case Return(c, reply) => ReturnKeeps(s, c, reply);
    case Restart(i) => RestartKeeps(s, i);
  }

  lemma {:induction false} RunInv(clerks: nat, servers: nat, states: seq<State>, steps: seq<Step>, k: nat)
    requires OrderedRun(clerks, servers, states, steps) && k < |states|
    ensures Inv(states[k])
    decreases k
  {
    hide Inv, Do, Enabled, InOrder;
    if k == 0 {
      InitOk(clerks, servers);
    } else {
      RunInv(clerks, servers, states, steps, k - 1);
      assert Next(states[k - 1], steps[k - 1], states[k - 1 + 1]) && InOrder(states[k - 1], steps[k - 1]);
      StepKeeps(states[k - 1], steps[k - 1]);
    }
  }
}
