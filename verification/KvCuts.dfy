/** Which compactions a store server may still ask of its Raft peer: in every run, restarts included,
    each lies within the log that the peer then has, or is one that the peer ignores. */
module KvCuts {
  import opened KvSystem

  /** What Compaction asks for: nothing of an index not beyond the last cut, else that it lies between
      where the saved log starts and what has been handed over. */
  ghost predicate InLog(srv: Server, index: nat) {
    1 <= index <= srv.delivered && (index > srv.last ==> srv.base <= index)
  }

  ghost predicate CutsOk(srv: Server) {
    srv.last <= srv.base <= srv.delivered + 1 && forall index :: index in srv.cuts ==> InLog(srv, index)
  }

  lemma DeliverCuts(srv: Server, t: Server)
    requires CutsOk(srv) && t.delivered == srv.delivered + 1 && t.base == srv.base && t.last == srv.last
    requires t.cuts <= srv.cuts + {t.delivered}
    ensures CutsOk(t)
  {
    forall index | index in t.cuts ensures InLog(t, index) {
      if index != t.delivered { assert InLog(srv, index); }
    }
  }

  /** A cut raises both bounds together, so what is still pending is beyond it or ignored. */
  lemma CutCuts(srv: Server, index: nat, t: Server)
    requires CutsOk(srv) && index in srv.cuts
    requires t == if index <= srv.last then srv.(cuts := srv.cuts - {index})
                  else srv.(cuts := srv.cuts - {index}, base := index, last := index)
    ensures CutsOk(t)
  {
    assert InLog(srv, index);
    forall i | i in t.cuts ensures InLog(t, i) { assert InLog(srv, i); }
  }

  lemma StepCuts(s: State, step: Step, i: nat)
    requires Enabled(s, step) && i < |s.servers| && CutsOk(s.servers[i])
    ensures i < |Do(s, step).servers| && CutsOk(Do(s, step).servers[i])
  {
    hide CutsOk, Turn, Answers, Answer, PointOf, Listening, Unlistening;
    var srv := s.servers[i];
    match step
    case Deliver(j, to, full) => if j == i { DeliverCuts(srv, Do(s, step).servers[i]); }
    case Cut(j, index) => if j == i { CutCuts(srv, index, Do(s, step).servers[i]); }
    case Listen(j, _) => if j == i { SameCuts(srv, Do(s, step).servers[i]); }
    case Timeout(j, _) => if j == i { SameCuts(srv, Do(s, step).servers[i]); }
    case Restart(j) => if j == i { RestartCuts(srv); }
    case _ =>
  }

  lemma SameCuts(srv: Server, t: Server)
    requires CutsOk(srv) && t.delivered == srv.delivered && t.base == srv.base && t.last == srv.last && t.cuts == srv.cuts
    ensures CutsOk(t)
  {
    forall index | index in t.cuts ensures InLog(t, index) { assert InLog(srv, index); }
  }

  lemma RestartCuts(srv: Server)
    requires CutsOk(srv)
    ensures CutsOk(Recovered(srv))
  {
  }

  /** In every run, every index a server still has to compact at lies in its peer's log, or is one the
      peer ignores: the slice is never out of range, although a restart forgets the last cut. */
  lemma {:induction false} PendingCutsInLog(clerks: nat, servers: nat, states: seq<State>, steps: seq<Step>, k: nat, i: nat)
    requires Run(clerks, servers, states, steps) && k < |states| && i < servers
    ensures i < |states[k].servers| && CutsOk(states[k].servers[i])
  {
    hide Do, Enabled, CutsOk;
    if k == 0 {
      FreshCuts(clerks, servers, i);
    } else {
      PendingCutsInLog(clerks, servers, states, steps, k - 1, i);
      assert Next(states[k - 1], steps[k - 1], states[k - 1 + 1]);
      StepCuts(states[k - 1], steps[k - 1], i);
    }
  }

  lemma FreshCuts(clerks: nat, servers: nat, i: nat)
    requires i < servers
    ensures CutsOk(Init(clerks, servers).servers[i])
  {
  }
}
