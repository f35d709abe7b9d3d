/** Linearizability: the calls of a run, put in the order of the points where they take effect, are a
    legal run of one sequential map, and no call moves past another that ended before it began. */
module KvLinear {
  import opened Commands
  import opened Kv
  import opened KvSystem
  import opened KvInv
  import opened KvSteps

  datatype Event = Event(op: Operation, value: string, point: nat)

  // ----- sequential histories of a plain map -----

  function DbAfter(h: seq<Event>): map<string, string> {
    if h == [] then map[] else Effect(DbAfter(h[..|h| - 1]), h[|h| - 1].op)
  }

  predicate LegalAt(h: seq<Event>, k: nat)
    requires k < |h|
  {
    h[k].value == Output(DbAfter(h[..k]), h[k].op)
  }

  /** Every event returns what a map that took the events before it would return. */
  ghost predicate Legal(h: seq<Event>) {
    forall k :: 0 <= k < |h| ==> LegalAt(h, k)
  }

  lemma LegalExtends(h: seq<Event>, e: Event)
    requires Legal(h) && e.value == Output(DbAfter(h), e.op)
    ensures Legal(h + [e]) && DbAfter(h + [e]) == Effect(DbAfter(h), e.op)
  {
    assert (h + [e])[..|h|] == h;
    forall k | 0 <= k < |h + [e]| ensures LegalAt(h + [e], k) {
      if k < |h| { assert (h + [e])[..k] == h[..k] && LegalAt(h, k); }
    }
  }

  // ----- the linearization of a state -----

  /** The p-th entry takes effect if it is the first copy of a mutation. */
  function Own(log: seq<Operation>, p: nat): seq<Event>
    requires 0 < p <= |log|
  {
    if log[p - 1].kind != Get && log[p - 1] !in log[..p - 1] then [Event(log[p - 1], "", p)] else []
  }

  /** The Gets among the first k completed calls that read after p entries. */
  function Reads(done: seq<Done>, p: nat, k: nat): seq<Event>
    requires k <= |done|
  {
    if k == 0 then []
    else
      var d := done[k - 1];
      Reads(done, p, k - 1) + if d.call.op.kind == Get && d.point == p then [Event(d.call.op, d.value, p)] else []
  }

  function Linear(log: seq<Operation>, done: seq<Done>, p: nat): seq<Event>
    requires p <= |log|
  {
    if p == 0 then [] else Linear(log, done, p - 1) + Own(log, p) + Reads(done, p, |done|)
  }

  function Linearization(s: State): seq<Event> {
    Linear(s.log, s.done, |s.log|)
  }

  // ----- it is legal -----

  lemma SameIsSame(s: State, a: Operation, b: Operation)
    requires RequestsOk(s) && a in s.requests && b in s.requests
    ensures SameCall(a, b) ==> a == b
  {
  }

  /** In an in-order run the effective operations are the first copies. */
  lemma FirstCopiesRise(s: State, k: nat)
    requires RequestsOk(s) && LogInOrder(s) && k < |s.log|
    ensures Rises(s.log, k) <==> s.log[k] !in s.log[..k]
  {
    assert EarlierIn(s.requests, s.log, k);
    if s.log[k] in s.log[..k] {
      var j :| 0 <= j < k && s.log[..k][j] == s.log[k];
      assert s.log[j] == s.log[k];
    } else {
      forall j | 0 <= j < k && s.log[j].clientId == s.log[k].clientId ensures s.log[j].clientSeq < s.log[k].clientSeq {
        assert s.log[..k][j] == s.log[j];
        SameIsSame(s, s.log[j], s.log[k]);
        assert EarlierIn(s.requests, s.log, j);
        assert s.log[..j] <= s.log[..k];
      }
    }
  }

  /** The p-th entry executes just when it rises. */
  lemma ExecutedNext(log: seq<Operation>, p: nat)
    requires 0 < p <= |log|
    ensures Replay(EMPTY_STORE, log[..p]) == ApplyOp(Replay(EMPTY_STORE, log[..p - 1]), log[p - 1])
    ensures Executes(Replay(EMPTY_STORE, log[..p - 1]), log[p - 1]) <==> Rises(log, p - 1)
  {
    ExactlyOnce(log[..p - 1]);
    assert log[..p][..p - 1] == log[..p - 1];
    ExecutesWhatRises(Replay(EMPTY_STORE, log[..p - 1]), log[..p], p - 1);
    assert forall j :: 0 <= j < p ==> log[..p][j] == log[j];
  }

  lemma OwnIsLegal(s: State, h: seq<Event>, p: nat)
    requires RequestsOk(s) && LogInOrder(s) && 0 < p <= |s.log|
    requires Legal(h) && DbAfter(h) == Replay(EMPTY_STORE, s.log[..p - 1]).db
    ensures Legal(h + Own(s.log, p)) && DbAfter(h + Own(s.log, p)) == Replay(EMPTY_STORE, s.log[..p]).db
  {
    hide RequestsOk, LogInOrder, Legal, Rises, Executes;
    var op, before := s.log[p - 1], s.log[..p - 1];
    FirstCopiesRise(s, p - 1);
    ExecutedNext(s.log, p);
    if Own(s.log, p) == [] {
      assert h + Own(s.log, p) == h;
    } else {
      LegalExtends(h, Event(op, "", p));
    }
  }

  lemma GetsAreRight(s: State, k: nat)
    requires AllDoneOk(s) && k < |s.done|
    ensures s.done[k].call.op.kind == Get ==>
              s.done[k].point <= |s.log|
              && s.done[k].value == Lookup(Replay(EMPTY_STORE, s.log[..s.done[k].point]).db, s.done[k].call.op.key)
  {
    assert DoneOk(s, s.done[k]);
  }

  lemma GetsChangeNothing(db: map<string, string>, op: Operation)
    requires op.kind == Get
    ensures Effect(db, op) == db
  {
  }

  lemma {:induction false} ReadsAreLegal(s: State, h: seq<Event>, p: nat, k: nat)
    requires AllDoneOk(s) && p <= |s.log| && k <= |s.done|
    requires Legal(h) && DbAfter(h) == Replay(EMPTY_STORE, s.log[..p]).db
    ensures Legal(h + Reads(s.done, p, k)) && DbAfter(h + Reads(s.done, p, k)) == DbAfter(h)
    decreases k
  {
    hide Legal, AllDoneOk, Effect, DbAfter, Replay;
    if k == 0 {
      assert h + Reads(s.done, p, 0) == h;
    } else {
      ReadsAreLegal(s, h, p, k - 1);
      GetsAreRight(s, k - 1);
      var d, sofar := s.done[k - 1], h + Reads(s.done, p, k - 1);
      if d.call.op.kind == Get && d.point == p {
        var e := Event(d.call.op, d.value, p);
        LegalExtends(sofar, e);
        assert Effect(DbAfter(sofar), e.op) == DbAfter(sofar) by { GetsChangeNothing(DbAfter(sofar), e.op); }
        assert h + Reads(s.done, p, k) == sofar + [e];
      } else {
        assert h + Reads(s.done, p, k) == sofar;
      }
    }
  }

  lemma {:induction false} LinearIsLegal(s: State, p: nat)
    requires Inv(s) && p <= |s.log|
    ensures Legal(Linear(s.log, s.done, p))
    ensures DbAfter(Linear(s.log, s.done, p)) == Replay(EMPTY_STORE, s.log[..p]).db
  {
    hide Legal, Own;
    if p == 0 {
      NothingIsLegal();
      assert s.log[..0] == [];
    } else {
      LinearIsLegal(s, p - 1);
      var h := Linear(s.log, s.done, p - 1);
      OwnIsLegal(s, h, p);
      ReadsAreLegal(s, h + Own(s.log, p), p, |s.done|);
    }
  }

  lemma NothingIsLegal()
    ensures Legal([])
  {
  }

  // ----- what is in it, and in what order -----

  ghost predicate IsRead(done: seq<Done>, k: int, e: Event) {
    0 <= k < |done| && done[k].call.op == e.op && done[k].point == e.point && done[k].value == e.value
  }

  /** An event is the first copy of a mutation, or a completed Get. */
  ghost predicate EventOk(s: State, e: Event) {
    0 < e.point <= |s.log|
    && if e.op.kind == Get then exists k :: IsRead(s.done, k, e)
       else e.value == "" && s.log[e.point - 1] == e.op && e.op !in s.log[..e.point - 1]
  }

  lemma SamePoint(s: State, a: Event, b: Event)
    requires AllDoneOk(s) && EventOk(s, a) && EventOk(s, b) && a.op == b.op
    ensures a == b
  {
    if a.op.kind == Get {
      var j, k :| IsRead(s.done, j, a) && IsRead(s.done, k, b);
      assert DistinctAt(s.done, j, k);
    } else {
      NotBefore(s.log, a.point - 1, a.op, b.point - 1);
      NotBefore(s.log, b.point - 1, b.op, a.point - 1);
    }
  }

  ghost predicate Before(h: seq<Event>, a: int, b: int)
    requires 0 <= a < b < |h|
  {
    h[a].point <= h[b].point && h[a].op != h[b].op
  }

  /** Events stand in the order of their points, none twice. */
  ghost predicate Ordered(h: seq<Event>) {
    forall a, b :: 0 <= a < b < |h| ==> Before(h, a, b)
  }

  ghost predicate EventsOk(s: State, h: seq<Event>, p: nat) {
    forall a :: 0 <= a < |h| ==> EventOk(s, h[a]) && h[a].point <= p
  }

  lemma OrderExtends(s: State, h: seq<Event>, p: nat, e: Event)
    requires EventsOk(s, h, p) && Ordered(h) && EventOk(s, e) && e.point == p
    requires forall a :: 0 <= a < |h| ==> h[a].op != e.op
    ensures EventsOk(s, h + [e], p) && Ordered(h + [e])
  {
    forall a, b | 0 <= a < b < |h + [e]| ensures Before(h + [e], a, b) {
      if b < |h| { assert Before(h, a, b); }
    }
  }

  lemma OwnInOrder(s: State, h: seq<Event>, p: nat)
    requires AllDoneOk(s) && 0 < p <= |s.log| && EventsOk(s, h, p - 1) && Ordered(h)
    ensures EventsOk(s, h + Own(s.log, p), p) && Ordered(h + Own(s.log, p))
  {
    if Own(s.log, p) == [] {
      assert h + Own(s.log, p) == h;
    } else {
      var e := Event(s.log[p - 1], "", p);
      forall a | 0 <= a < |h| ensures h[a].op != e.op {
        if h[a].op == e.op { SamePoint(s, h[a], e); assert false; }
      }
      OrderExtends(s, h, p, e);
    }
  }

  /** Nothing in h is a read of one of the completed calls from k on at point p. */
  ghost predicate NotYet(done: seq<Done>, h: seq<Event>, p: nat, k: nat) {
    forall a, j :: 0 <= a < |h| && k <= j < |done| && done[j].point == p && done[j].call.op.kind == Get
                   ==> h[a].op != done[j].call.op
  }

  lemma {:induction false} ReadsInOrder(s: State, h: seq<Event>, p: nat, k: nat)
    requires AllDoneOk(s) && p <= |s.log| && k <= |s.done| && EventsOk(s, h, p) && Ordered(h)
    requires NotYet(s.done, h, p, 0)
    ensures EventsOk(s, h + Reads(s.done, p, k), p) && Ordered(h + Reads(s.done, p, k))
    ensures NotYet(s.done, h + Reads(s.done, p, k), p, k)
    decreases k
  {
    if k == 0 {
      assert h + Reads(s.done, p, 0) == h;
    } else {
      ReadsInOrder(s, h, p, k - 1);
      var d, sofar := s.done[k - 1], h + Reads(s.done, p, k - 1);
      assert DoneOk(s, d);
      if d.call.op.kind == Get && d.point == p {
        var e := Event(d.call.op, d.value, p);
        assert IsRead(s.done, k - 1, e);
        OrderExtends(s, sofar, p, e);
        assert h + Reads(s.done, p, k) == sofar + [e];
        forall a, j | 0 <= a < |sofar + [e]| && k <= j < |s.done| && s.done[j].point == p && s.done[j].call.op.kind == Get
          ensures (sofar + [e])[a].op != s.done[j].call.op
        {
          assert DistinctAt(s.done, k - 1, j);
        }
      } else {
        assert h + Reads(s.done, p, k) == sofar;
      }
    }
  }

  lemma ReadsNotYet(s: State, h: seq<Event>, p: nat)
    requires AllDoneOk(s) && 0 < p <= |s.log| && EventsOk(s, h, p - 1)
    ensures NotYet(s.done, h + Own(s.log, p), p, 0)
  {
    forall a, j | 0 <= a < |h + Own(s.log, p)| && 0 <= j < |s.done| && s.done[j].point == p && s.done[j].call.op.kind == Get
      ensures (h + Own(s.log, p))[a].op != s.done[j].call.op
    {
      assert DoneOk(s, s.done[j]);
      var e := Event(s.done[j].call.op, s.done[j].value, p);
      assert IsRead(s.done, j, e);
      if a < |h| && h[a].op == e.op { SamePoint(s, h[a], e); assert false; }
    }
  }

  lemma {:induction false} LinearInOrder(s: State, p: nat)
    requires Inv(s) && p <= |s.log|
    ensures EventsOk(s, Linear(s.log, s.done, p), p) && Ordered(Linear(s.log, s.done, p))
  {
    hide EventsOk, Ordered, Own, NotYet;
    if p == 0 {
      NothingInOrder(s);
    } else {
      LinearInOrder(s, p - 1);
      var h := Linear(s.log, s.done, p - 1);
      OwnInOrder(s, h, p);
      ReadsNotYet(s, h, p);
      ReadsInOrder(s, h + Own(s.log, p), p, |s.done|);
    }
  }

  lemma NothingInOrder(s: State)
    ensures EventsOk(s, [], 0) && Ordered([])
  {
  }

  // ----- nothing is missing -----

  lemma {:induction false} LinearGrows(log: seq<Operation>, done: seq<Done>, p: nat, q: nat)
    requires p <= q <= |log|
    ensures Linear(log, done, p) <= Linear(log, done, q)
    decreases q
  {
    if p < q { LinearGrows(log, done, p, q - 1); }
  }

  lemma {:induction false} ReadsHold(done: seq<Done>, k: nat, m: nat)
    requires k < m <= |done| && done[k].call.op.kind == Get
    ensures Event(done[k].call.op, done[k].value, done[k].point) in Reads(done, done[k].point, m)
    decreases m
  {
    if k < m - 1 { ReadsHold(done, k, m - 1); }
  }

  function EventOf(d: Done): Event {
    Event(d.call.op, d.value, d.point)
  }

  lemma DoneIsThere(s: State, k: nat)
    requires Inv(s) && k < |s.done|
    ensures EventOf(s.done[k]) in Linearization(s)
  {
    hide RequestsOk, LogInOrder, StoresOk, AllWaitingOk, RepliesOk, PendingOk, Accounted, Right, CallOk;
    var d := s.done[k];
    assert DoneOk(s, d);
    var e := EventOf(d);
    if d.call.op.kind == Get { ReadsHold(s.done, k, |s.done|); } else { assert Own(s.log, d.point) == [e]; }
    var here := Linear(s.log, s.done, d.point);
    assert e in here;
    LinearGrows(s.log, s.done, d.point, |s.log|);
    var i :| 0 <= i < |here| && here[i] == e;
    assert Linearization(s)[i] == e;
  }

  // ----- real time -----

  ghost predicate CallOf(s: State, call: Call) {
    (exists k :: 0 <= k < |s.done| && s.done[k].call == call)
    || exists c :: 0 <= c < |s.clerks| && s.clerks[c].pending == Some(call)
  }

  lemma EventAfterInvocation(s: State, call: Call, e: Event)
    requires Inv(s) && CallOf(s, call) && EventOk(s, e) && e.op == call.op
    ensures e.point > call.invokedAt && PointsBefore(s.done, call.after, call.invokedAt)
  {
    hide StoresOk, AllWaitingOk, RepliesOk, Right, LogInOrder;
    assert CallOk(s, call) by {
      if k :| 0 <= k < |s.done| && s.done[k].call == call {
        assert DoneOk(s, s.done[k]);
      }
    }
    if e.op.kind == Get {
      var k :| IsRead(s.done, k, e);
      assert DoneOk(s, s.done[k]);
      if j :| 0 <= j < |s.done| && s.done[j].call == call {
        assert DistinctAt(s.done, j, k);
      } else {
        assert false;
      }
    } else {
      NotBefore(s.log, call.invokedAt, e.op, e.point - 1);
    }
  }

  /** A call that had ended before another began stands before it. */
  lemma RealTime(s: State, j: nat, call: Call, a: nat, b: nat)
    requires Inv(s) && CallOf(s, call) && j < call.after <= |s.done|
    requires a < |Linearization(s)| && b < |Linearization(s)|
    requires Linearization(s)[a].op == s.done[j].call.op && Linearization(s)[b].op == call.op
    ensures a < b
  {
    hide StoresOk, AllWaitingOk, RepliesOk, Right, LogInOrder, RequestsOk, Linearization, PendingOk;
    var h := Linearization(s);
    InOrderAtEnd(s);
    DoneEvent(s, j);
    assert EventOk(s, h[a]) && EventOk(s, h[b]);
    SamePoint(s, h[a], EventOf(s.done[j]));
    EventAfterInvocation(s, call, h[b]);
    assert h[a].point < h[b].point;
    assert b < a ==> Before(h, b, a);
  }

  lemma InOrderAtEnd(s: State)
    requires Inv(s)
    ensures EventsOk(s, Linearization(s), |s.log|) && Ordered(Linearization(s))
  {
    LinearInOrder(s, |s.log|);
  }

  lemma DoneEvent(s: State, j: nat)
    requires AllDoneOk(s) && j < |s.done|
    ensures EventOk(s, EventOf(s.done[j]))
  {
    assert DoneOk(s, s.done[j]);
    assert IsRead(s.done, j, EventOf(s.done[j]));
  }

  // ----- the theorem -----

  /** Completed calls appear exactly once with the result they returned; besides them there are
      only operations still in progress; and calls that do not overlap keep their order. */
  ghost predicate Linearizes(s: State, h: seq<Event>) {
    Legal(h) && Ordered(h)
    && (forall k :: 0 <= k < |s.done| ==> EventOf(s.done[k]) in h)
    && (forall a :: 0 <= a < |h| ==> OfCall(s, h[a]))
    && forall j, call: Call, a, b :: PrecedesAt(s, h, j, call, a, b) ==> a < b
  }

  /** The j-th completed call, standing at a, had ended before `call`, standing at b, began. */
  ghost predicate PrecedesAt(s: State, h: seq<Event>, j: int, call: Call, a: int, b: int) {
    0 <= j < call.after <= |s.done| && CallOf(s, call) && StandsAt(h, a, s.done[j].call.op) && StandsAt(h, b, call.op)
  }

  ghost predicate StandsAt(h: seq<Event>, a: int, op: Operation) {
    0 <= a < |h| && h[a].op == op
  }

  ghost predicate OfCall(s: State, e: Event) {
    Pending(s, e.op) || exists k :: 0 <= k < |s.done| && EventOf(s.done[k]) == e
  }

  lemma LinearizationFits(s: State)
    requires Inv(s)
    ensures Linearizes(s, Linearization(s))
    ensures DbAfter(Linearization(s)) == Replay(EMPTY_STORE, s.log).db
  {
    hide StoresOk, AllWaitingOk, RepliesOk, Right, LogInOrder, RequestsOk, Linearization, PendingOk, AllDoneOk, Legal, Ordered,
         CallOf, Accounted, EventsOk;
    var h := Linearization(s);
    LegalAtEnd(s);
    InOrderAtEnd(s);
    forall k | 0 <= k < |s.done| ensures EventOf(s.done[k]) in h {
      DoneIsThere(s, k);
    }
    forall a | 0 <= a < |h| ensures OfCall(s, h[a]) {
      EventIsOfCall(s, h[a]) by { InRange(s, h, a); }
    }
    forall j, call: Call, a, b | PrecedesAt(s, h, j, call, a, b) ensures a < b {
      RealTime(s, j, call, a, b);
    }
  }

  lemma LegalAtEnd(s: State)
    requires Inv(s)
    ensures Legal(Linearization(s)) && DbAfter(Linearization(s)) == Replay(EMPTY_STORE, s.log).db
  {
    LinearIsLegal(s, |s.log|);
    assert s.log[..|s.log|] == s.log;
  }

  lemma InRange(s: State, h: seq<Event>, a: nat)
    requires EventsOk(s, h, |s.log|) && a < |h|
    ensures EventOk(s, h[a])
  {
  }

  lemma EventIsOfCall(s: State, e: Event)
    requires AllDoneOk(s) && LogInOrder(s) && Accounted(s) && EventOk(s, e)
    ensures OfCall(s, e)
  {
    if e.op.kind == Get {
      var k :| IsRead(s.done, k, e);
      assert EventOf(s.done[k]) == e;
    } else {
      assert s.log[e.point - 1] in s.requests;
      if !Pending(s, e.op) {
        var k :| Completed(s.done, k, e.op);
        DoneEvent(s, k);
        SamePoint(s, e, EventOf(s.done[k]));
      }
    }
  }

  /** Every in-order run of the service is linearizable, at every moment, and the map the calls have
      built is the one every server that has caught up holds. */
  lemma Linearizable(clerks: nat, servers: nat, states: seq<State>, steps: seq<Step>, k: nat)
    requires OrderedRun(clerks, servers, states, steps) && k < |states|
    ensures exists h :: Linearizes(states[k], h) && DbAfter(h) == Replay(EMPTY_STORE, states[k].log).db
    ensures forall i :: 0 <= i < |states[k].servers| ==> StoreOk(states[k].log, states[k].servers[i])
  {
    RunInv(clerks, servers, states, steps, k);
    LinearizationFits(states[k]);
  }
}
