/** The replicated store as a function of the committed log: what one applied entry does, and why
    duplicates and replays change nothing. */
module Kv {
  import opened Commands

  type Operation = c: Command | c.Op? witness Op("", "", Get, 0, 0)

  /** The two maps a snapshot saves: the data, and the last sequence number executed by client. */
  datatype Store = Store(db: map<string, string>, seqCheck: map<int, int>)

  const EMPTY_STORE := Store(map[], map[])

  function Lookup(db: map<string, string>, key: string): string {
    if key in db then db[key] else ""
  }

  /** The operation on its own, as a plain map would take it. */
  function Effect(db: map<string, string>, op: Operation): map<string, string> {
    match op.kind
    case Get => db
    case Put => db[op.key := op.value]
    case Append => db[op.key := Lookup(db, op.key) + op.value]
  }

  /** What the operation returns to its caller. */
  function Output(db: map<string, string>, op: Operation): string {
    if op.kind == Get then Lookup(db, op.key) else ""
  }

  predicate Executes(s: Store, op: Operation) {
    !(op.clientId in s.seqCheck && op.clientSeq < s.seqCheck[op.clientId] + 1)
  }

  /** One turn of the apply loop. */
  function ApplyOp(s: Store, op: Operation): Store {
    if Executes(s, op)
    then Store(Effect(s.db, op), s.seqCheck[op.clientId := op.clientSeq])
    else s
  }

  function Replay(s: Store, ops: seq<Operation>): Store {
    if ops == [] then s
    else ApplyOp(Replay(s, ops[..|ops| - 1]), ops[|ops| - 1])
  }

  lemma {:induction false} ReplayConcat(s: Store, a: seq<Operation>, b: seq<Operation>)
    ensures Replay(s, a + b) == Replay(Replay(s, a), b)
    decreases |b|
  {
    if b == [] {
      assert a + b == a;
    } else {
      assert (a + b)[..|a + b| - 1] == a + b[..|b| - 1];
      ReplayConcat(s, a, b[..|b| - 1]);
    }
  }

  // ----- exactly once -----

  /** The k-th operation has a larger sequence number than all its client's earlier ones. */
  predicate Rises(ops: seq<Operation>, k: nat)
    requires k < |ops|
  {
    forall j :: 0 <= j < k && ops[j].clientId == ops[k].clientId ==> ops[j].clientSeq < ops[k].clientSeq
  }

  /** The operations whose sequence number is a strict running maximum of their client. */
  function Effective(ops: seq<Operation>): seq<Operation> {
    if ops == [] then []
    else Effective(ops[..|ops| - 1]) + if Rises(ops, |ops| - 1) then [ops[|ops| - 1]] else []
  }

  function Fold(db: map<string, string>, ops: seq<Operation>): map<string, string> {
    if ops == [] then db
    else Effect(Fold(db, ops[..|ops| - 1]), ops[|ops| - 1])
  }

  ghost predicate IsAt(ops: seq<Operation>, k: int, id: int, number: int) {
    0 <= k < |ops| && ops[k].clientId == id && ops[k].clientSeq == number
  }

  /** seqCheck holds, of each client seen, the largest sequence number. */
  ghost predicate Largest(seqCheck: map<int, int>, ops: seq<Operation>) {
    (forall k :: 0 <= k < |ops| ==> ops[k].clientId in seqCheck && ops[k].clientSeq <= seqCheck[ops[k].clientId])
    && (forall id :: id in seqCheck ==> exists k :: IsAt(ops, k, id, seqCheck[id]))
  }

  lemma ExecutesWhatRises(s: Store, ops: seq<Operation>, n: nat)
    requires |ops| == n + 1 && Largest(s.seqCheck, ops[..n])
    ensures Executes(s, ops[n]) <==> Rises(ops, n)
  {
    var before, op := ops[..n], ops[n];
    if op.clientId in s.seqCheck {
      var k :| IsAt(before, k, op.clientId, s.seqCheck[op.clientId]);
      assert ops[k] == before[k];
    }
    forall j | 0 <= j < n && ops[j].clientId == op.clientId
      ensures op.clientId in s.seqCheck && ops[j].clientSeq <= s.seqCheck[op.clientId]
    {
      assert ops[j] == before[j];
    }
  }

  lemma StaysLargest(s: Store, before: seq<Operation>, op: Operation)
    requires Largest(s.seqCheck, before)
    ensures Largest(ApplyOp(s, op).seqCheck, before + [op])
  {
    var ops, t := before + [op], ApplyOp(s, op);
    forall id | id in t.seqCheck ensures exists k :: IsAt(ops, k, id, t.seqCheck[id]) {
      if id == op.clientId && Executes(s, op) {
        assert IsAt(ops, |before|, id, t.seqCheck[id]);
      } else {
        var k :| IsAt(before, k, id, s.seqCheck[id]);
        assert IsAt(ops, k, id, t.seqCheck[id]);
      }
    }
  }

  lemma NothingApplied()
    ensures Replay(EMPTY_STORE, []) == EMPTY_STORE && Fold(map[], Effective([])) == map[]
  {
  }

  lemma LastApplied(s: Store, before: seq<Operation>, op: Operation)
    ensures Replay(s, before + [op]) == ApplyOp(Replay(s, before), op)
  {
    assert (before + [op])[..|before|] == before;
  }

  lemma LastEffective(ops: seq<Operation>)
    requires ops != []
    ensures var done := Fold(map[], Effective(ops[..|ops| - 1]));
            Fold(map[], Effective(ops)) == if Rises(ops, |ops| - 1) then Effect(done, ops[|ops| - 1]) else done
  {
    hide Rises, Fold, Effect;
    var done, op := Effective(ops[..|ops| - 1]), ops[|ops| - 1];
    if Rises(ops, |ops| - 1) {
      LastFolded(map[], done, op);
    } else {
      assert done + [] == done;
    }
  }

  lemma LastFolded(db: map<string, string>, done: seq<Operation>, op: Operation)
    ensures Fold(db, done + [op]) == Effect(Fold(db, done), op)
  {
    assert (done + [op])[..|done|] == done;
  }

  /** Whatever the log repeats or reorders, the store is the plain fold of its effective operations. */
  lemma {:induction false} ExactlyOnce(ops: seq<Operation>)
    ensures Largest(Replay(EMPTY_STORE, ops).seqCheck, ops)
    ensures Replay(EMPTY_STORE, ops).db == Fold(map[], Effective(ops))
  {
    hide Largest, Rises, Executes, Replay, Effective, Fold;
    NothingApplied();
    if ops == [] {
      NoneIsLargest();
    } else {
      var n := |ops| - 1;
      var before, op := ops[..n], ops[n];
      assert ops == before + [op];
      var s := Replay(EMPTY_STORE, before);
      LastApplied(EMPTY_STORE, before, op);
      ExactlyOnce(before);
      StaysLargest(s, before, op);
      ExecutesWhatRises(s, ops, n);
      LastEffective(ops);
    }
  }

  lemma NoneIsLargest()
    ensures Largest(map[], [])
  {
  }

  /** A client's effective operations never repeat or go back. */
  lemma {:induction false} EffectiveRises(ops: seq<Operation>, i: nat, j: nat)
    requires i < j < |Effective(ops)| && Effective(ops)[i].clientId == Effective(ops)[j].clientId
    ensures Effective(ops)[i].clientSeq < Effective(ops)[j].clientSeq
  {
    var before := ops[..|ops| - 1];
    if j < |Effective(before)| {
      EffectiveRises(before, i, j);
    } else {
      EffectiveFromLog(before, i);
    }
  }

  lemma {:induction false} EffectiveFromLog(ops: seq<Operation>, i: nat)
    requires i < |Effective(ops)|
    ensures exists k :: 0 <= k < |ops| && ops[k] == Effective(ops)[i]
  {
    var before := ops[..|ops| - 1];
    if i < |Effective(before)| {
      EffectiveFromLog(before, i);
      var k :| 0 <= k < |before| && before[k] == Effective(before)[i];
      assert ops[k] == Effective(ops)[i];
    } else {
      assert ops[|ops| - 1] == Effective(ops)[i];
    }
  }

  // ----- replays -----

  ghost predicate AllSeen(s: Store, ops: seq<Operation>) {
    forall k :: 0 <= k < |ops| ==> !Executes(s, ops[k])
  }

  lemma {:induction false} SeenChangesNothing(s: Store, ops: seq<Operation>)
    requires AllSeen(s, ops)
    ensures Replay(s, ops) == s
  {
    if ops != [] {
      SeenChangesNothing(s, ops[..|ops| - 1]);
    }
  }

  /** A store that has replayed k operations skips each of them from then on. */
  lemma PrefixSeen(ops: seq<Operation>, k: nat, i: nat, j: nat)
    requires i <= j <= k <= |ops|
    ensures AllSeen(Replay(EMPTY_STORE, ops[..k]), ops[i..j])
  {
    ExactlyOnce(ops[..k]);
    forall n | 0 <= n < |ops[i..j]| ensures !Executes(Replay(EMPTY_STORE, ops[..k]), ops[i..j][n]) {
      assert ops[i..j][n] == ops[..k][i + n];
    }
  }

  /** A later copy of an operation never changes the state, wherever it is put. */
  lemma LaterCopyChangesNothing(ops: seq<Operation>, i: nat, j: nat)
    requires i < j <= |ops|
    ensures Replay(EMPTY_STORE, ops[..j] + [ops[i]] + ops[j..]) == Replay(EMPTY_STORE, ops)
  {
    hide Executes, ApplyOp, AllSeen, Replay;
    var s, copy := Replay(EMPTY_STORE, ops[..j]), [ops[i]];
    PrefixSeen(ops, j, i, i + 1);
    assert ops[i..i + 1] == copy;
    SeenChangesNothing(s, copy);
    ReplayConcat(EMPTY_STORE, ops[..j] + copy, ops[j..]);
    ReplayConcat(EMPTY_STORE, ops[..j], copy);
    ReplayConcat(EMPTY_STORE, ops[..j], ops[j..]);
    assert ops[..j] + ops[j..] == ops;
  }

  /** With a snapshot that covers the first k operations, being handed those from any earlier point
      on again is the identity, and going on to n is replaying all n: a crash between saving the
      snapshot and compacting the log costs nothing. */
  lemma SnapshotRecovery(ops: seq<Operation>, j: nat, k: nat, n: nat)
    requires j <= k <= n <= |ops|
    ensures Replay(Replay(EMPTY_STORE, ops[..k]), ops[j..k]) == Replay(EMPTY_STORE, ops[..k])
    ensures Replay(Replay(EMPTY_STORE, ops[..k]), ops[j..n]) == Replay(EMPTY_STORE, ops[..n])
  {
    var s := Replay(EMPTY_STORE, ops[..k]);
    PrefixSeen(ops, k, j, k);
    SeenChangesNothing(s, ops[j..k]);
    assert ops[j..n] == ops[j..k] + ops[k..n] && ops[..n] == ops[..k] + ops[k..n];
    ReplayConcat(s, ops[j..k], ops[k..n]);
    ReplayConcat(EMPTY_STORE, ops[..k], ops[k..n]);
  }

  // ----- a snapshot from Raft -----

  /** Decoding a snapshot into the two maps: its entries are put over what the maps hold. */
  function Install(s: Store, snapshot: Store): Store {
    Store(s.db + snapshot.db, s.seqCheck + snapshot.seqCheck)
  }

  lemma {:induction false} ReplayKeepsKeys(s: Store, ops: seq<Operation>)
    ensures s.db.Keys <= Replay(s, ops).db.Keys && s.seqCheck.Keys <= Replay(s, ops).seqCheck.Keys
    decreases |ops|
  {
    if ops != [] { ReplayKeepsKeys(s, ops[..|ops| - 1]); }
  }

  /** On a store that is behind the snapshot this replaces the store. */
  lemma InstallCatchesUp(ops: seq<Operation>, j: nat, k: nat)
    requires j <= k <= |ops|
    ensures Install(Replay(EMPTY_STORE, ops[..j]), Replay(EMPTY_STORE, ops[..k])) == Replay(EMPTY_STORE, ops[..k])
  {
    var s, t := Replay(EMPTY_STORE, ops[..j]), Replay(EMPTY_STORE, ops[..k]);
    assert ops[..k] == ops[..j] + ops[j..k];
    ReplayConcat(EMPTY_STORE, ops[..j], ops[j..k]);
    ReplayKeepsKeys(s, ops[j..k]);
    assert s.db + t.db == t.db && s.seqCheck + t.seqCheck == t.seqCheck;
  }
}
