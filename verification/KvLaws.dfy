/** What a key holds, and what a Get returns: the value of the last Put followed by what was appended
    since, over whatever the log repeats and in every linearization of every run. */
module KvLaws {
  import opened Commands
  import opened Kv
  import opened KvSystem
  import opened KvLinear

  // ----- the value of a key, from the operations alone -----

  predicate PutsTo(op: Operation, key: string) { op.kind == Put && op.key == key }

  predicate AppendsTo(op: Operation, key: string) { op.kind == Append && op.key == key }

  ghost predicate NoPut(ops: seq<Operation>, key: string) {
    forall j :: 0 <= j < |ops| ==> !PutsTo(ops[j], key)
  }

  /** Nothing was put to the key after position p, where something was. */
  ghost predicate LastPut(ops: seq<Operation>, key: string, p: int) {
    0 <= p < |ops| && PutsTo(ops[p], key) && NoPut(ops[p + 1..], key)
  }

  /** The first word in front, the last at the end. */
  function Joined(words: seq<string>): string {
    if words == [] then "" else words[0] + Joined(words[1..])
  }

  /** What was appended to the key, in order. */
  function Appended(ops: seq<Operation>, key: string): seq<string> {
    if ops == [] then []
    else (if AppendsTo(ops[0], key) then [ops[0].value] else []) + Appended(ops[1..], key)
  }

  /** The value of the last Put, or nothing, followed by what was appended since. */
  ghost predicate Holds(ops: seq<Operation>, key: string, value: string) {
    (NoPut(ops, key) ==> value == Joined(Appended(ops, key)))
    && forall p :: LastPut(ops, key, p) ==> value == ops[p].value + Joined(Appended(ops[p + 1..], key))
  }

  /** Some operation has given the key a value. */
  ghost predicate Written(ops: seq<Operation>, key: string) {
    exists j :: 0 <= j < |ops| && (PutsTo(ops[j], key) || AppendsTo(ops[j], key))
  }

  lemma {:induction false} JoinedLast(words: seq<string>, word: string)
    ensures Joined(words + [word]) == Joined(words) + word
  {
    if words == [] {
      assert Joined([word]) == word + Joined([]);
    } else {
      assert (words + [word])[1..] == words[1..] + [word];
      JoinedLast(words[1..], word);
    }
  }

  lemma {:induction false} AppendedLast(ops: seq<Operation>, op: Operation, key: string)
    ensures Appended(ops + [op], key) == Appended(ops, key) + if AppendsTo(op, key) then [op.value] else []
  {
    if ops == [] {
      assert Appended([op], key) == (if AppendsTo(op, key) then [op.value] else []) + Appended([], key);
    } else {
      assert (ops + [op])[1..] == ops[1..] + [op];
      AppendedLast(ops[1..], op, key);
    }
  }

  lemma JoinedAppended(ops: seq<Operation>, op: Operation, key: string)
    ensures Joined(Appended(ops + [op], key)) == Joined(Appended(ops, key)) + if AppendsTo(op, key) then op.value else ""
  {
    hide Joined, Appended;
    AppendedLast(ops, op, key);
    if AppendsTo(op, key) {
      JoinedLast(Appended(ops, key), op.value);
    } else {
      assert Appended(ops, key) + [] == Appended(ops, key);
    }
  }

  lemma {:induction false} SomePutOrNone(ops: seq<Operation>, key: string) returns (p: int)
    ensures LastPut(ops, key, p) || (p == -1 && NoPut(ops, key))
  {
    if ops == [] {
      p := -1;
    } else {
      var n := |ops| - 1;
      if PutsTo(ops[n], key) {
        p := n;
      } else {
        p := SomePutOrNone(ops[..n], key);
        if p >= 0 { assert ops[p + 1..] == ops[..n][p + 1..] + [ops[n]]; }
      }
    }
  }

  /** The description fits one value only. */
  lemma HoldsOne(ops: seq<Operation>, key: string, a: string, b: string)
    requires Holds(ops, key, a) && Holds(ops, key, b)
    ensures a == b
  {
    hide Joined, Appended, NoPut, LastPut;
    var p := SomePutOrNone(ops, key);
  }

  lemma NoPutLast(ops: seq<Operation>, op: Operation, key: string)
    requires NoPut(ops + [op], key)
    ensures NoPut(ops, key) && !PutsTo(op, key)
  {
    assert (ops + [op])[|ops|] == op;
    forall j | 0 <= j < |ops| ensures !PutsTo(ops[j], key) { assert (ops + [op])[j] == ops[j]; }
  }

  lemma PutsLast(ops: seq<Operation>, op: Operation, key: string, p: int)
    requires LastPut(ops + [op], key, p)
    ensures if p == |ops| then PutsTo(op, key) else LastPut(ops, key, p) && !PutsTo(op, key)
  {
    if p < |ops| {
      assert (ops + [op])[p + 1..] == ops[p + 1..] + [op];
      NoPutLast(ops[p + 1..], op, key);
    }
  }

  /** One more operation: a Put sets the value, an Append adds to its end, nothing else changes it. */
  lemma HoldsNext(ops: seq<Operation>, op: Operation, key: string, value: string)
    requires Holds(ops, key, value)
    ensures Holds(ops + [op], key,
                  if PutsTo(op, key) then op.value else if AppendsTo(op, key) then value + op.value else value)
  {
    hide Joined, Appended, NoPut, LastPut;
    var all := ops + [op];
    var next := if PutsTo(op, key) then op.value else if AppendsTo(op, key) then value + op.value else value;
    if NoPut(all, key) {
      NoPutLast(ops, op, key);
      JoinedAppended(ops, op, key);
    }
    forall p | LastPut(all, key, p) ensures InRange(all, p) && next == all[p].value + Joined(Appended(all[p + 1..], key)) {
      PutsLast(ops, op, key, p);
      LastPutAt(all, key, p);
      if p == |ops| {
        assert all[p + 1..] == [];
        NothingAppended(key);
      } else {
        assert all[p + 1..] == ops[p + 1..] + [op];
        JoinedAppended(ops[p + 1..], op, key);
      }
    }
  }

  predicate InRange(ops: seq<Operation>, p: int) { 0 <= p < |ops| }

  lemma LastPutAt(ops: seq<Operation>, key: string, p: int)
    requires LastPut(ops, key, p)
    ensures InRange(ops, p)
  {
  }

  lemma NothingAppended(key: string)
    ensures Joined(Appended([], key)) == ""
  {
  }

  // ----- the store -----

  /** After any operations every key holds just that, and is there just if something wrote it. */
  lemma {:induction false} FoldHolds(ops: seq<Operation>, key: string)
    ensures Holds(ops, key, Lookup(Fold(map[], ops), key))
    ensures key in Fold(map[], ops) <==> Written(ops, key)
  {
    hide Holds;
    if ops == [] {
      NothingHeld(key);
    } else {
      var n := |ops| - 1;
      FoldHolds(ops[..n], key);
      HoldsNext(ops[..n], ops[n], key, Lookup(Fold(map[], ops[..n]), key));
      assert ops[..n] + [ops[n]] == ops;
    }
  }

  lemma NothingHeld(key: string)
    ensures Holds([], key, "")
  {
  }

  /** What a server holds that has replayed a log with all its repeats: by key, the value of the last
      effective Put followed by the effective Appends since. */
  lemma StoreHolds(ops: seq<Operation>, key: string)
    ensures Holds(Effective(ops), key, Lookup(Replay(EMPTY_STORE, ops).db, key))
    ensures key in Replay(EMPTY_STORE, ops).db <==> Written(Effective(ops), key)
  {
    ExactlyOnce(ops);
    FoldHolds(Effective(ops), key);
  }

  // ----- what calls return -----

  function OpsOf(h: seq<Event>): (ops: seq<Operation>)
    ensures |ops| == |h| && forall k :: 0 <= k < |h| ==> ops[k] == h[k].op
  {
    if h == [] then [] else OpsOf(h[..|h| - 1]) + [h[|h| - 1].op]
  }

  lemma {:induction false} DbAfterFolds(h: seq<Event>)
    ensures DbAfter(h) == Fold(map[], OpsOf(h))
  {
    if h != [] {
      DbAfterFolds(h[..|h| - 1]);
      assert OpsOf(h)[..|h| - 1] == OpsOf(h[..|h| - 1]);
    }
  }

  /** A Get returned what its key held after the events before it; the others returned nothing. */
  ghost predicate ReturnsHeld(h: seq<Event>, k: nat)
    requires k < |h|
  {
    if h[k].op.kind == Get then Holds(OpsOf(h[..k]), h[k].op.key, h[k].value) else h[k].value == ""
  }

  lemma ReturnsAsMap(h: seq<Event>, k: nat)
    requires k < |h|
    ensures LegalAt(h, k) <==> ReturnsHeld(h, k)
  {
    hide Holds, DbAfter, Fold, OpsOf;
    DbAfterFolds(h[..k]);
    if h[k].op.kind == Get {
      var held := Lookup(DbAfter(h[..k]), h[k].op.key);
      FoldHolds(OpsOf(h[..k]), h[k].op.key);
      if ReturnsHeld(h, k) { HoldsOne(OpsOf(h[..k]), h[k].op.key, held, h[k].value); }
    }
  }

  /** A history is legal if and only if every Get in it returned the value of the last Put before it
      followed by the Appends since. */
  lemma LegalMeans(h: seq<Event>)
    ensures Legal(h) <==> forall k :: 0 <= k < |h| ==> ReturnsHeld(h, k)
  {
    hide LegalAt, ReturnsHeld;
    forall k | 0 <= k < |h| ensures LegalAt(h, k) <==> ReturnsHeld(h, k) { ReturnsAsMap(h, k); }
  }

  /** So do the Gets of every in-order run, at every moment. */
  lemma CallsReturnHeld(clerks: nat, servers: nat, states: seq<State>, steps: seq<Step>, k: nat)
    requires OrderedRun(clerks, servers, states, steps) && k < |states|
    ensures exists h :: Linearizes(states[k], h) && forall a :: 0 <= a < |h| ==> ReturnsHeld(h, a)
  {
    hide ReturnsHeld, OrderedRun;
    Linearizable(clerks, servers, states, steps, k);
    var h :| Linearizes(states[k], h);
    LegalMeans(h);
  }
}
