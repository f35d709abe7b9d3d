/** Why no handler may overtake one of a call in progress: a client's channel does not say which call
    an answer belongs to.  In every reachable state, overtaking can end in the older call's answer
    being taken for the newer one's. */
module KvOvertaking {
  import opened Commands
  import opened Kv
  import opened KvSystem
  import opened KvInv
  import opened KvSteps

  // ----- what every run keeps, in order or not -----

  ghost predicate HasWaiter(srv: Server, id: int) {
    exists w :: w in srv.waiting && w.clientId == id
  }

  /** Whoever is listened for has a handler receiving. */
  ghost predicate ListensOk(srv: Server) {
    forall id :: id in srv.replica.callBack && srv.replica.callBack[id].listen ==> HasWaiter(srv, id)
  }

  ghost predicate ServerSound(entries: nat, srv: Server) {
    ListensOk(srv) && srv.delivered <= srv.covered <= entries && SavedOk(srv)
  }

  ghost predicate Sound(s: State) {
    RequestsOk(s) && (forall k :: 0 <= k < |s.log| ==> s.log[k] in s.requests)
    && forall i :: 0 <= i < |s.servers| ==> ServerSound(|s.log|, s.servers[i])
  }

  ghost predicate SavedOk(srv: Server) {
    (forall index :: index in srv.cuts ==> srv.snapshot.Some? && index <= srv.snapshot.value.covers)
    && match srv.snapshot
       case None => srv.base == 0
       case Some(d) => srv.base <= d.covers <= srv.covered
  }

  lemma ListenSound(srv: Server, op: Operation)
    requires ListensOk(srv)
    ensures ListensOk(srv.(replica := Listening(srv.replica, op), waiting := srv.waiting + multiset{op}))
  {
    var t := srv.(replica := Listening(srv.replica, op), waiting := srv.waiting + multiset{op});
    forall id | id in t.replica.callBack && t.replica.callBack[id].listen ensures HasWaiter(t, id) {
      if id == op.clientId {
        assert op in t.waiting;
      } else {
        assert HasWaiter(srv, id);
        var w :| w in srv.waiting && w.clientId == id;
        assert w in t.waiting;
      }
    }
  }

  lemma OthersWait(srv: Server, t: Server, gone: Operation)
    requires ListensOk(srv) && t.waiting == srv.waiting - multiset{gone}
    requires gone.clientId in t.replica.callBack ==> !t.replica.callBack[gone.clientId].listen
    requires forall id :: id != gone.clientId && id in t.replica.callBack ==>
               id in srv.replica.callBack && t.replica.callBack[id] == srv.replica.callBack[id]
    ensures ListensOk(t)
  {
    forall id | id in t.replica.callBack && t.replica.callBack[id].listen ensures HasWaiter(t, id) {
      assert HasWaiter(srv, id);
      var w :| w in srv.waiting && w.clientId == id;
      assert w in t.waiting;
    }
  }

  lemma DeliverSound(srv: Server, op: Operation, to: Operation, full: bool)
    requires ListensOk(srv)
    requires Answers(srv.replica.callBack, op) ==> to in srv.waiting && to.clientId == op.clientId
    ensures ListensOk(DeliverTo(srv, op, to, full))
  {
    var t := DeliverTo(srv, op, to, full);
    if Answers(srv.replica.callBack, op) {
      OthersWait(srv, t, to);
    } else {
      forall id | id in t.replica.callBack && t.replica.callBack[id].listen ensures HasWaiter(t, id) {
        assert HasWaiter(srv, id);
      }
    }
  }

  /** One server changed. */
  lemma UpdateSound(s: State, i: nat, srv: Server, replies: set<Reply>)
    requires Sound(s) && i < |s.servers| && ServerSound(|s.log|, srv)
    ensures Sound(s.(servers := s.servers[i := srv], replies := replies))
  {
    hide ServerSound;
    SameRequests(s, s.(servers := s.servers[i := srv], replies := replies));
  }

  /** No server changed. */
  lemma ClerksSound(s: State, t: State)
    requires Sound(s) && t == s.(log := t.log, clerks := t.clerks, done := t.done) && |s.log| <= |t.log|
    requires RequestsOk(t) && forall k :: 0 <= k < |t.log| ==> t.log[k] in t.requests
    ensures Sound(t)
  {
    hide RequestsOk, ListensOk, SavedOk;
  }

  lemma InvokeSound(s: State, c: nat, key: string, value: string, kind: OpKind)
    requires Sound(s) && Enabled(s, Invoke(c, key, value, kind))
    ensures Sound(Do(s, Invoke(c, key, value, kind)))
  {
    hide ServerSound;
    InvokeRequests(s, c, key, value, kind);
  }

  lemma ServerStepSound(s: State, i: nat, step: Step)
    requires Sound(s) && Enabled(s, step) && i < |s.servers|
    requires (step.Listen? || step.Timeout? || step.Deliver? || step.Cut? || step.Restart?) && step.i == i
    ensures Do(s, step) == s.(servers := s.servers[i := Do(s, step).servers[i]], replies := Do(s, step).replies)
    ensures ServerSound(|s.log|, Do(s, step).servers[i])
  {
    hide RequestsOk, ListensOk;
    var srv := s.servers[i];
    assert ServerSound(|s.log|, srv);
    match step
    case Listen(_, op) => ListenSound(srv, op);
    case Timeout(_, op) => OthersWait(srv, Do(s, step).servers[i], op);
    case Deliver(_, to, full) => DeliverSound(srv, s.log[srv.delivered], to, full);
    case Cut(_, index) => SameListening(srv, Do(s, step).servers[i]);
    case Restart(_) => NobodyListens(Recovered(srv));
  }

  lemma NobodyListens(srv: Server)
    requires srv.replica.callBack == map[]
    ensures ListensOk(srv)
  {
  }

  lemma StepSound(s: State, step: Step)
    requires Sound(s) && Enabled(s, step)
    ensures Sound(Do(s, step))
  {
    hide RequestsOk, ServerSound, DeliverTo, Recovered;
    var t := Do(s, step);
    match step
    case Invoke(c, key, value, kind) => InvokeSound(s, c, key, value, kind);
    case Commit(op) => SameRequests(s, t); ClerksSound(s, t);
    case Return(c, reply) => SameRequests(s, t); ClerksSound(s, t);
    case Listen(i, _) => ServerStepSound(s, i, step); UpdateSound(s, i, t.servers[i], t.replies);
    case Timeout(i, _) => ServerStepSound(s, i, step); UpdateSound(s, i, t.servers[i], t.replies);
    case Deliver(i, _, _) => ServerStepSound(s, i, step); UpdateSound(s, i, t.servers[i], t.replies);
    case Cut(i, _) => ServerStepSound(s, i, step); UpdateSound(s, i, t.servers[i], t.replies);
    case Restart(i) => ServerStepSound(s, i, step); UpdateSound(s, i, t.servers[i], t.replies);
  }

  lemma SameListening(srv: Server, t: Server)
    requires ListensOk(srv) && t.waiting == srv.waiting && t.replica.callBack == srv.replica.callBack
    ensures ListensOk(t)
  {
    forall id | id in t.replica.callBack && t.replica.callBack[id].listen ensures HasWaiter(t, id) {
      assert HasWaiter(srv, id);
    }
  }

  lemma SameRequests(s: State, t: State)
    requires RequestsOk(s) && t.requests == s.requests && |t.clerks| == |s.clerks|
    requires forall c :: 0 <= c < |s.clerks| ==>
               t.clerks[c].next == s.clerks[c].next && (t.clerks[c].pending == s.clerks[c].pending || t.clerks[c].pending == None)
    ensures RequestsOk(t)
  {
    forall r | r in t.requests ensures RequestOk(t, r) { assert RequestOk(s, r); }
  }

  lemma {:induction false} RunSound(clerks: nat, servers: nat, states: seq<State>, steps: seq<Step>, k: nat)
    requires Run(clerks, servers, states, steps) && k < |states|
    ensures Sound(states[k]) && forall i :: 0 <= i < |states[k].servers| ==> CanGoOn(states[k], i)
    decreases k
  {
    hide Sound, Do, Enabled, CanGoOn;
    if k == 0 {
      InitSound(clerks, servers);
    } else {
      RunSound(clerks, servers, states, steps, k - 1);
      assert Next(states[k - 1], steps[k - 1], states[k - 1 + 1]);
      StepSound(states[k - 1], steps[k - 1]);
    }
    forall i | 0 <= i < |states[k].servers| ensures CanGoOn(states[k], i) { GoesOn(states[k], i); }
  }

  /** A server that has not applied all of the log can apply the next entry: if that sends an answer,
      somebody receives. */
  ghost predicate CanGoOn(s: State, i: nat)
    requires i < |s.servers|
  {
    s.servers[i].delivered < |s.log| ==> exists to :: Enabled(s, Deliver(i, to, false))
  }

  lemma GoesOn(s: State, i: nat)
    requires Sound(s) && i < |s.servers|
    ensures CanGoOn(s, i)
  {
    var srv := s.servers[i];
    if srv.delivered < |s.log| {
      assert ServerSound(|s.log|, srv);
      var to := Receiver(srv, s.log[srv.delivered], s.log[srv.delivered]);
      assert Enabled(s, Deliver(i, to, false));
    }
  }

  lemma InitSound(clerks: nat, servers: nat)
    ensures Sound(Init(clerks, servers))
  {
  }

  // ----- overtaking always can go wrong -----

  ghost predicate Chain(states: seq<State>, steps: seq<Step>) {
    |states| == |steps| + 1 && forall k :: 0 <= k < |steps| ==> Next(states[k], steps[k], states[k + 1])
  }

  lemma Prepend(s: State, step: Step, states: seq<State>, steps: seq<Step>)
    requires Enabled(s, step) && Chain(states, steps) && states[0] == Do(s, step)
    ensures Chain([s] + states, [step] + steps)
  {
    var a, b := [s] + states, [step] + steps;
    forall k | 0 <= k < |b| ensures Next(a[k], b[k], a[k + 1]) {
      if k > 0 { assert Next(states[k - 1], steps[k - 1], states[k - 1 + 1]); }
    }
  }

  /** The reply a clerk may now take: its own call's, with the value the older one should have had. */
  ghost predicate Misled(t: State, i: nat, late: Operation, w: Operation, reply: Reply) {
    i < |t.servers| && reply in t.replies && reply.op == w && Pending(t, w)
    && reply.value == Answer(t.servers[i].replica.store, late)
  }

  /** Server i listens for `late`, which it has still to apply, while w receives. */
  ghost predicate Exposed(s: State, i: nat, late: Operation, w: Operation) {
    Sound(s) && i < |s.servers| && w in s.servers[i].waiting && w.clientId == late.clientId && Pending(s, w)
    && late in s.requests && late.clientId in s.servers[i].replica.callBack
    && s.servers[i].replica.callBack[late.clientId] == CallBack(true, late.clientSeq)
    && late in s.log[s.servers[i].delivered..]
  }

  /** The turn that applies `late` sends its answer to w. */
  lemma WrongAnswer(s: State, i: nat, late: Operation, w: Operation) returns (reply: Reply)
    requires Exposed(s, i, late, w) && s.servers[i].delivered < |s.log|
    requires SameCall(s.log[s.servers[i].delivered], late)
    ensures Enabled(s, Deliver(i, w, false)) && Misled(Do(s, Deliver(i, w, false)), i, late, w, reply)
  {
    hide RequestsOk, ServerSound, ApplyOp;
    var op := s.log[s.servers[i].delivered];
    assert op in s.requests;
    SameRequest(s, op, late);
    var t := Do(s, Deliver(i, w, false));
    reply := Reply(w, Answer(t.servers[i].replica.store, op), t.servers[i].covered);
  }

  lemma SameRequest(s: State, a: Operation, b: Operation)
    requires RequestsOk(s) && a in s.requests && b in s.requests && SameCall(a, b)
    ensures a == b
  {
  }

  lemma SoundThere(s: State, i: nat)
    requires Sound(s) && i < |s.servers|
    ensures ListensOk(s.servers[i])
  {
    assert ServerSound(|s.log|, s.servers[i]);
  }

  /** Until `late` is applied the server can always go on, and then w gets the answer. */
  lemma {:induction false} DeliversToWrong(s: State, i: nat, late: Operation, w: Operation)
    returns (states: seq<State>, steps: seq<Step>, reply: Reply)
    requires Exposed(s, i, late, w)
    ensures Chain(states, steps) && states[0] == s && Misled(states[|steps|], i, late, w, reply)
    decreases |s.log| - s.servers[i].delivered
  {
    hide Sound, Misled, Do;
    var srv := s.servers[i];
    var op := s.log[srv.delivered];
    if SameCall(op, late) {
      reply := WrongAnswer(s, i, late, w);
      states, steps := [s, Do(s, Deliver(i, w, false))], [Deliver(i, w, false)];
    } else {
      SoundThere(s, i);
      var to := Receiver(srv, op, late);
      StillExposed(s, i, late, w, to);
      var t := Do(s, Deliver(i, to, false));
      states, steps, reply := DeliversToWrong(t, i, late, w);
      Prepend(s, Deliver(i, to, false), states, steps);
      states, steps := [s] + states, [Deliver(i, to, false)] + steps;
    }
  }

  /** Who takes the answer to op, if there is one. */
  lemma Receiver(srv: Server, op: Operation, otherwise: Operation) returns (to: Operation)
    requires ListensOk(srv)
    ensures Answers(srv.replica.callBack, op) ==> to in srv.waiting && to.clientId == op.clientId
  {
    if Answers(srv.replica.callBack, op) {
      assert HasWaiter(srv, op.clientId);
      to :| to in srv.waiting && to.clientId == op.clientId;
    } else {
      to := otherwise;
    }
  }

  lemma StillExposed(s: State, i: nat, late: Operation, w: Operation, to: Operation)
    requires Exposed(s, i, late, w) && !SameCall(s.log[s.servers[i].delivered], late)
    requires var op := s.log[s.servers[i].delivered];
             Answers(s.servers[i].replica.callBack, op) ==> to in s.servers[i].waiting && to.clientId == op.clientId
    ensures Enabled(s, Deliver(i, to, false)) && Exposed(Do(s, Deliver(i, to, false)), i, late, w)
    ensures var t := Do(s, Deliver(i, to, false)); t.log == s.log && t.servers[i].delivered == s.servers[i].delivered + 1
  {
    var srv, t := s.servers[i], Do(s, Deliver(i, to, false));
    var op := s.log[srv.delivered];
    StepSound(s, Deliver(i, to, false));
    assert s.log[srv.delivered..] == [op] + s.log[srv.delivered + 1..];
    assert !(op.clientId == late.clientId && Answers(srv.replica.callBack, op));
  }

  /** In every reachable state, letting a handler overtake one of a call in progress has a
      continuation in which that call's clerk may take the answer to the older operation. */
  lemma OvertakingMisleads(clerks: nat, servers: nat, states: seq<State>, steps: seq<Step>, i: nat, late: Operation, w: Operation)
    returns (after: seq<State>, more: seq<Step>, reply: Reply)
    requires Run(clerks, servers, states, steps)
    requires var s := states[|steps|]; Enabled(s, Listen(i, late)) && Overtaken(s, i, late, w)
    ensures !InOrder(states[|steps|], Listen(i, late))
    ensures Chain(after, more) && after[0] == states[|steps|] && |more| > 0 && more[0] == Listen(i, late)
    ensures var t := after[|more|];
            Misled(t, i, late, w, reply) && 0 <= w.clientId < |t.clerks| && Enabled(t, Return(w.clientId, reply))
  {
    var s := states[|steps|];
    RunSound(clerks, servers, states, steps, |steps|);
    StepSound(s, Listen(i, late));
    var s1 := Do(s, Listen(i, late));
    StepSound(s1, Commit(late));
    var s2 := Do(s1, Commit(late));
    assert s2.log[s2.servers[i].delivered..][|s.log| - s2.servers[i].delivered] == late;
    after, more, reply := DeliversToWrong(s2, i, late, w);
    Prepend(s1, Commit(late), after, more);
    Prepend(s, Listen(i, late), [s1] + after, [Commit(late)] + more);
    after, more := [s] + ([s1] + after), [Listen(i, late)] + ([Commit(late)] + more);
  }
}
