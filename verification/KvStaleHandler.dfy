/** A run in which a handler overtakes that of a newer call, and which is not linearizable. */
module KvStaleHandler {
  import opened Commands
  import opened Kv
  import opened KvSystem
  import opened KvLinear

  const PUT_X := Op("x", "v", Put, 0, 0)
  const GET_X := Op("x", "", Get, 0, 1)

  /** A clerk stores "v" and has its answer; a handler still left of that call registers only after
      the handler of the clerk's next call, a Get, which then returns "". */
  function BadSteps(): seq<Step> {
    [Invoke(0, "x", "v", Put), Listen(0, PUT_X), Commit(PUT_X), Deliver(0, PUT_X, false), Return(0, Reply(PUT_X, "", 1)),
     Invoke(0, "x", "", Get), Listen(0, GET_X), Listen(0, PUT_X), Commit(PUT_X), Deliver(0, GET_X, false),
     Return(0, Reply(GET_X, "", 2))]
  }

  const STORED := Store(map["x" := "v"], map[0 := 0])
  const PUT_CALL := Call(PUT_X, 0, 0)
  const GET_CALL := Call(GET_X, 1, 1)
  const PUT_DONE := Done(PUT_CALL, "", 1)
  const PUT_REPLY := Reply(PUT_X, "", 1)

  function Before4(log: seq<Operation>, callBack: map<int, CallBack>, waiting: multiset<Operation>): State {
    State(log, {PUT_X}, [Clerk(1, Some(PUT_CALL))],
          [Server(Replica(EMPTY_STORE, callBack), 0, 0, waiting, None, {}, 0, 0)], {}, [])
  }

  function From4(log: seq<Operation>, requests: set<Operation>, clerk: Clerk, callBack: CallBack,
                 waiting: multiset<Operation>, done: seq<Done>): State {
    State(log, requests, [clerk], [Server(Replica(STORED, map[0 := callBack]), 1, 1, waiting, None, {}, 0, 0)],
          {PUT_REPLY}, done)
  }

  function BadState(k: nat): State {
    if k == 0 then Init(1, 1)
    else if k == 1 then Before4([], map[], multiset{})
    else if k == 2 then Before4([], map[0 := CallBack(true, 0)], multiset{PUT_X})
    else if k == 3 then Before4([PUT_X], map[0 := CallBack(true, 0)], multiset{PUT_X})
    else if k == 4 then From4([PUT_X], {PUT_X}, Clerk(1, Some(PUT_CALL)), CallBack(false, 0), multiset{}, [])
    else if k == 5 then From4([PUT_X], {PUT_X}, Clerk(1, None), CallBack(false, 0), multiset{}, [PUT_DONE])
    else if k == 6 then From4([PUT_X], {PUT_X, GET_X}, Clerk(2, Some(GET_CALL)), CallBack(false, 0), multiset{}, [PUT_DONE])
    else if k == 7 then From4([PUT_X], {PUT_X, GET_X}, Clerk(2, Some(GET_CALL)), CallBack(true, 1), multiset{GET_X}, [PUT_DONE])
    else if k == 8 then From4([PUT_X], {PUT_X, GET_X}, Clerk(2, Some(GET_CALL)), CallBack(true, 0), multiset{GET_X, PUT_X}, [PUT_DONE])
    else if k == 9 then From4([PUT_X, PUT_X], {PUT_X, GET_X}, Clerk(2, Some(GET_CALL)), CallBack(true, 0), multiset{GET_X, PUT_X}, [PUT_DONE])
    else if k == 10 then BadEnd(Clerk(2, Some(GET_CALL)), [PUT_DONE])
    else BadEnd(Clerk(2, None), [PUT_DONE, Done(GET_CALL, "", 2)])
  }

  function BadEnd(clerk: Clerk, done: seq<Done>): State {
    State([PUT_X, PUT_X], {PUT_X, GET_X}, [clerk],
          [Server(Replica(STORED, map[0 := CallBack(false, 0)]), 2, 2, multiset{PUT_X}, None, {}, 0, 0)],
          {PUT_REPLY, Reply(GET_X, "", 2)}, done)
  }

  lemma PutInvoked()
    ensures Next(BadState(0), BadSteps()[0], BadState(1))
  {
    assert Do(BadState(0), BadSteps()[0]).clerks == BadState(1).clerks;
    assert Do(BadState(0), BadSteps()[0]).servers == BadState(1).servers;
  }

  lemma PutListens()
    ensures Next(BadState(1), BadSteps()[1], BadState(2))
  {
    var t, u := Do(BadState(1), BadSteps()[1]), BadState(2);
    assert t.servers[0].waiting == u.servers[0].waiting;
    assert t.servers[0].replica.callBack == u.servers[0].replica.callBack;
  }

  lemma PutCommits()
    ensures Next(BadState(2), BadSteps()[2], BadState(3))
  {
  }

  lemma PutApplied()
    ensures Next(BadState(3), BadSteps()[3], BadState(4))
  {
    var t, u := Do(BadState(3), BadSteps()[3]), BadState(4);
    assert t.servers[0].replica.store == STORED;
    assert t.servers[0] == u.servers[0] && t.replies == u.replies;
  }

  lemma PutReturns()
    ensures Next(BadState(4), BadSteps()[4], BadState(5))
  {
  }

  lemma GetInvoked()
    ensures Next(BadState(5), BadSteps()[5], BadState(6))
  {
  }

  lemma GetListens()
    ensures Next(BadState(6), BadSteps()[6], BadState(7))
  {
    var t, u := Do(BadState(6), BadSteps()[6]), BadState(7);
    assert t.servers[0].waiting == u.servers[0].waiting;
    assert t.servers[0].replica.callBack == u.servers[0].replica.callBack;
  }

  lemma GetOvertaken()
    ensures !InOrder(BadState(7), BadSteps()[7])
  {
    assert GET_X in BadState(7).servers[0].waiting && Overtaken(BadState(7), 0, PUT_X, GET_X);
  }

  lemma AroundLate()
    ensures BadState(7) == From4([PUT_X], {PUT_X, GET_X}, Clerk(2, Some(GET_CALL)), CallBack(true, 1), multiset{GET_X}, [PUT_DONE])
    ensures BadState(8) == From4([PUT_X], {PUT_X, GET_X}, Clerk(2, Some(GET_CALL)), CallBack(true, 0), multiset{GET_X, PUT_X}, [PUT_DONE])
    ensures BadSteps()[7] == Listen(0, PUT_X)
  {
  }

  lemma PutListensLate()
    ensures Next(BadState(7), BadSteps()[7], BadState(8))
  {
    hide BadState;
    AroundLate();
    var t, u := Do(BadState(7), BadSteps()[7]), BadState(8);
    assert t.servers[0].waiting == u.servers[0].waiting;
    assert t.servers[0].replica.callBack == u.servers[0].replica.callBack;
  }

  lemma PutCommitsAgain()
    ensures Next(BadState(8), BadSteps()[8], BadState(9))
  {
  }

  lemma AroundMisled()
    ensures BadState(9) == From4([PUT_X, PUT_X], {PUT_X, GET_X}, Clerk(2, Some(GET_CALL)), CallBack(true, 0),
                                 multiset{GET_X, PUT_X}, [PUT_DONE])
    ensures BadState(10) == BadEnd(Clerk(2, Some(GET_CALL)), [PUT_DONE]) && BadSteps()[9] == Deliver(0, GET_X, false)
  {
  }

  /** The turn leaves the store alone, as the Put was executed before, and takes the Get's handler. */
  lemma MisledTurn()
    ensures DeliverTo(BadState(9).servers[0], PUT_X, GET_X, false) == BadState(10).servers[0]
  {
    hide BadState;
    AroundMisled();
    var t, u := DeliverTo(BadState(9).servers[0], PUT_X, GET_X, false), BadState(10).servers[0];
    assert t.waiting == u.waiting;
    assert t.replica == u.replica;
  }

  lemma GetMisled()
    ensures Next(BadState(9), BadSteps()[9], BadState(10))
  {
    hide BadState, DeliverTo;
    AroundMisled();
    MisledTurn();
    var t, u := Do(BadState(9), BadSteps()[9]), BadState(10);
    assert t.replies == u.replies;
  }

  lemma GetReturns()
    ensures Next(BadState(10), BadSteps()[10], BadState(11))
  {
  }

  lemma BadRun() returns (states: seq<State>)
    ensures Run(1, 1, states, BadSteps()) && states[11] == BadState(11) && !InOrder(states[7], BadSteps()[7])
  {
    hide Next, InOrder;
    GetOvertaken();
    states := seq(12, k requires 0 <= k < 12 => BadState(k));
    forall k | 0 <= k < 11 ensures Next(states[k], BadSteps()[k], states[k + 1]) {
      PutInvoked();
      PutListens();
      PutCommits();
      PutApplied();
      PutReturns();
      GetInvoked();
      GetListens();
      PutListensLate();
      PutCommitsAgain();
      GetMisled();
      GetReturns();
    }
  }

  lemma Differ(h: seq<Event>, a: nat, b: nat)
    requires Ordered(h) && a < |h| && b < |h| && a != b
    ensures h[a].op != h[b].op
  {
    if a < b { assert Before(h, a, b); } else { assert Before(h, b, a); }
  }

  lemma OnlyTwo(h: seq<Event>, a: nat, b: nat)
    requires Ordered(h) && a < b < |h|
    requires forall c :: 0 <= c < |h| ==> h[c].op == h[a].op || h[c].op == h[b].op
    ensures a == 0 && b == 1 && |h| == 2
  {
    hide Ordered;
    if |h| != 2 || a != 0 || b != 1 {
      var c: nat := if a != 0 then 0 else if b != 1 then 1 else 2;
      Differ(h, c, a);
      Differ(h, c, b);
      assert false;
    }
  }

  lemma PutBeforeGet(h: seq<Event>, a: nat, b: nat)
    requires Linearizes(BadState(11), h) && a < |h| && b < |h| && h[a].op == PUT_X && h[b].op == GET_X
    ensures a < b
    ensures forall c :: 0 <= c < |h| ==> h[c].op == PUT_X || h[c].op == GET_X
  {
    hide Legal, Ordered;
    var s := BadState(11);
    assert s.done[1].call == GET_CALL;
    assert PrecedesAt(s, h, 0, GET_CALL, a, b);
    assert forall c :: 0 <= c < |h| ==> OfCall(s, h[c]);
  }

  /** No history explains what the clerk saw. */
  lemma NotLinearizable(h: seq<Event>)
    ensures !Linearizes(BadState(11), h)
  {
    hide Legal, Ordered, PrecedesAt, OfCall;
    var s := BadState(11);
    if Linearizes(s, h) {
      var put, read := Event(PUT_X, "", 1), Event(GET_X, "", 2);
      assert EventOf(s.done[0]) == put && EventOf(s.done[1]) == read;
      var a :| 0 <= a < |h| && h[a] == put;
      var b :| 0 <= b < |h| && h[b] == read;
      PutBeforeGet(h, a, b);
      OnlyTwo(h, a, b);
      assert h == [put, read];
      ReadsOldValue();
      assert false;
    }
  }

  lemma ReadsOldValue()
    ensures !Legal([Event(PUT_X, "", 1), Event(GET_X, "", 2)])
  {
    var h := [Event(PUT_X, "", 1), Event(GET_X, "", 2)];
    assert h[..1] == [h[0]] && h[..1][..0] == [];
    assert DbAfter(h[..1]) == Effect(DbAfter(h[..1][..0]), PUT_X);
    assert !LegalAt(h, 1);
  }
}
