/** What every in-order run of the service keeps. */
module KvInv {
  import opened Commands
  import opened Kv
  import opened KvSystem

  // ----- clerks and the log -----

  /** Requests carry the numbers their clerk gave them, each number once; a clerk's pending
      operation is its latest. */
  ghost predicate RequestOk(s: State, r: Operation) {
    0 <= r.clientId < |s.clerks| && 0 <= r.clientSeq < s.clerks[r.clientId].next
  }

  ghost predicate SameCall(a: Operation, b: Operation) {
    a.clientId == b.clientId && a.clientSeq == b.clientSeq
  }

  ghost predicate RequestsOk(s: State) {
    (forall r :: r in s.requests ==> RequestOk(s, r))
    && (forall a, b :: a in s.requests && b in s.requests && SameCall(a, b) ==> a == b)
    && (forall c :: 0 <= c < |s.clerks| ==> s.clerks[c].next >= 0)
    && forall c :: 0 <= c < |s.clerks| && s.clerks[c].pending.Some? ==>
         var op := s.clerks[c].pending.value.op;
         op in s.requests && op.clientId == c && op.clientSeq == s.clerks[c].next - 1
  }

  ghost predicate EarlierIn(requests: set<Operation>, log: seq<Operation>, k: int)
    requires 0 <= k < |log|
  {
    forall r :: r in requests && r.clientId == log[k].clientId && r.clientSeq < log[k].clientSeq ==> r in log[..k]
  }

  /** Only pending requests may be missing from the log, and those of one clerk first appear there
      in the order of their numbers. */
  ghost predicate LogInOrder(s: State) {
    (forall k :: 0 <= k < |s.log| ==> s.log[k] in s.requests)
    && (forall r :: r in s.requests ==> r in s.log || Pending(s, r))
    && forall k :: 0 <= k < |s.log| ==> EarlierIn(s.requests, s.log, k)
  }

  // ----- servers -----

  ghost predicate StoreOk(log: seq<Operation>, srv: Server) {
    srv.delivered <= srv.covered <= |log| && srv.replica.store == Replay(EMPTY_STORE, log[..srv.covered])
    && (forall index :: index in srv.cuts ==> srv.snapshot.Some? && index <= srv.snapshot.value.covers)
    && match srv.snapshot
       case None => srv.base == 0
       case Some(d) => srv.base <= d.covers <= srv.covered && d.store == Replay(EMPTY_STORE, log[..d.covers])
  }

  ghost predicate StoresOk(s: State) {
    forall i :: 0 <= i < |s.servers| ==> StoreOk(s.log, s.servers[i])
  }

  /** Nobody waits, for a call in progress, for more than the channel is registered for. */
  ghost predicate WaitingOk(s: State, srv: Server) {
    forall w :: w in srv.waiting ==>
      w in s.requests && w.clientId in srv.replica.callBack
      && (Pending(s, w) ==> w.clientSeq <= srv.replica.callBack[w.clientId].wantSeq)
  }

  ghost predicate AllWaitingOk(s: State) {
    forall i :: 0 <= i < |s.servers| ==> WaitingOk(s, s.servers[i])
  }

  // ----- replies -----

  /** The answer an operation gets from a store that reflects the first `point` entries. */
  ghost predicate Right(log: seq<Operation>, r: Operation, value: string, point: nat) {
    point <= |log| && r in log[..point] && value == Answer(Replay(EMPTY_STORE, log[..point]), r)
  }

  /** A reply is right, or nobody waits for it any more. */
  ghost predicate RepliesOk(s: State) {
    forall r :: r in s.replies ==> r.op in s.requests && (!Pending(s, r.op) || Right(s.log, r.op, r.value, r.point))
  }

  // ----- calls -----

  ghost predicate PointsBefore(done: seq<Done>, after: nat, bound: nat) {
    after <= |done| && forall j :: 0 <= j < after ==> done[j].point <= bound
  }

  ghost predicate CallOk(s: State, call: Call) {
    call.invokedAt <= |s.log| && call.op !in s.log[..call.invokedAt] && PointsBefore(s.done, call.after, call.invokedAt)
  }

  ghost predicate PendingOk(s: State) {
    forall c :: 0 <= c < |s.clerks| && s.clerks[c].pending.Some? ==> CallOk(s, s.clerks[c].pending.value)
  }

  /** A completed call took effect after it was invoked, at its point: a mutation at its first
      application, a Get where it read. */
  ghost predicate DoneOk(s: State, d: Done) {
    d.call.op in s.requests && !Pending(s, d.call.op) && CallOk(s, d.call)
    && d.call.invokedAt < d.point <= |s.log|
    && (d.call.op.kind == Get ==> Right(s.log, d.call.op, d.value, d.point))
    && (d.call.op.kind != Get ==>
          d.value == "" && s.log[d.point - 1] == d.call.op && d.call.op !in s.log[..d.point - 1])
  }

  ghost predicate DistinctAt(done: seq<Done>, j: int, k: int)
    requires 0 <= j < |done| && 0 <= k < |done|
  {
    j != k ==> done[j].call.op != done[k].call.op
  }

  ghost predicate AllDoneOk(s: State) {
    (forall k :: 0 <= k < |s.done| ==> DoneOk(s, s.done[k]) && s.done[k].call.after <= k)
    && forall j, k :: 0 <= j < |s.done| && 0 <= k < |s.done| ==> DistinctAt(s.done, j, k)
  }

  ghost predicate Completed(done: seq<Done>, k: int, r: Operation) {
    0 <= k < |done| && done[k].call.op == r
  }

  /** Every operation invoked is in progress or has completed. */
  ghost predicate Accounted(s: State) {
    forall r :: r in s.requests ==> Pending(s, r) || exists k :: Completed(s.done, k, r)
  }

  ghost predicate Inv(s: State) {
    RequestsOk(s) && Accounted(s) && LogInOrder(s) && StoresOk(s) && AllWaitingOk(s) && RepliesOk(s) && PendingOk(s) && AllDoneOk(s)
  }

  lemma InitOk(clerks: nat, servers: nat)
    ensures Inv(Init(clerks, servers))
  {
  }
}
