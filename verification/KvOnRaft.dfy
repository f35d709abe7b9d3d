/** What the service builds on: in every run of Raft there is one committed log, it only grows, every
    server hands over a prefix of it in order, and it holds nothing but submitted commands. */
module KvOnRaft {
  import opened Commands
  import opened RaftServer
  import opened RaftCore
  import opened RaftSystem
  import opened RaftSafety
  import opened RaftTheorems
  import Kv
  import Service = KvSystem

  // ----- one log -----

  function Longer(x: seq<ApplyMsg>, y: seq<ApplyMsg>): seq<ApplyMsg> {
    if |x| >= |y| then x else y
  }

  function LongestIn(servers: seq<Server>, m: nat): seq<ApplyMsg>
    requires m <= |servers|
  {
    if m == 0 then [] else Longer(LongestIn(servers, m - 1), servers[m - 1].applyCh)
  }

  /** Everything any server has handed to its service up to the a-th state. */
  function HandedOver(states: seq<State>, a: nat): seq<ApplyMsg>
    requires a < |states|
  {
    var here := LongestIn(states[a].servers, |states[a].servers|);
    if a == 0 then here else Longer(HandedOver(states, a - 1), here)
  }

  ghost predicate Comparable(x: seq<ApplyMsg>, y: seq<ApplyMsg>) {
    x <= y || y <= x
  }

  lemma StreamsAgree(n: nat, states: seq<State>, steps: seq<Step>, a: nat, b: nat, i: nat, j: nat)
    requires Run(n, states, steps) && a < |states| && b < |states| && i < |states[a].servers| && j < |states[b].servers|
    ensures Comparable(states[a].servers[i].applyCh, states[b].servers[j].applyCh)
  {
    hide Run;
    if a <= b { CommittedPrefixesAgree(n, states, steps, a, b, i, j); } else { CommittedPrefixesAgree(n, states, steps, b, a, j, i); }
    AppliesInOrder(n, states, steps, a, i);
    AppliesInOrder(n, states, steps, b, j);
    StreamsFollow(states[a].servers[i], states[b].servers[j]);
  }

  ghost predicate Streams(srv: Server) {
    |srv.applyCh| == srv.commitIndex < |srv.log|
    && forall k :: 0 <= k < |srv.applyCh| ==> srv.applyCh[k] == ApplyMsg(k + 1, srv.log[k + 1].command)
  }

  lemma StreamsFollow(x: Server, y: Server)
    requires Streams(x) && Streams(y)
    requires CommittedPrefix(x) <= CommittedPrefix(y) || CommittedPrefix(y) <= CommittedPrefix(x)
    ensures Comparable(x.applyCh, y.applyCh)
  {
    if CommittedPrefix(x) <= CommittedPrefix(y) { OneFollows(x, y); } else { OneFollows(y, x); }
  }

  lemma OneFollows(x: Server, y: Server)
    requires Streams(x) && Streams(y) && CommittedPrefix(x) <= CommittedPrefix(y)
    ensures x.applyCh <= y.applyCh
  {
    forall k | 0 <= k < |x.applyCh| ensures x.applyCh[k] == y.applyCh[k] {
      assert CommittedPrefix(x)[k + 1] == CommittedPrefix(y)[k + 1];
    }
  }

  lemma {:induction false} LongestIsSome(servers: seq<Server>, m: nat)
    requires m <= |servers|
    ensures LongestIn(servers, m) == [] || exists i :: 0 <= i < m && LongestIn(servers, m) == servers[i].applyCh
    ensures forall i :: 0 <= i < m ==> |servers[i].applyCh| <= |LongestIn(servers, m)|
  {
    if m > 0 { LongestIsSome(servers, m - 1); }
  }

  /** x is what server i had handed over in the b-th state, no later than the a-th. */
  ghost predicate StreamAt(states: seq<State>, a: nat, b: int, i: int, x: seq<ApplyMsg>) {
    0 <= b <= a && b < |states| && 0 <= i < |states[b].servers| && states[b].servers[i].applyCh == x
  }

  lemma {:induction false} HandedOverIsSome(states: seq<State>, a: nat)
    requires a < |states|
    ensures HandedOver(states, a) == [] || exists b, i :: StreamAt(states, a, b, i, HandedOver(states, a))
    ensures forall b, i :: 0 <= b <= a && 0 <= i < |states[b].servers| ==> |states[b].servers[i].applyCh| <= |HandedOver(states, a)|
  {
    LongestIsSome(states[a].servers, |states[a].servers|);
    var here := LongestIn(states[a].servers, |states[a].servers|);
    if here != [] {
      var i :| 0 <= i < |states[a].servers| && here == states[a].servers[i].applyCh;
      assert StreamAt(states, a, a, i, here);
    }
    if a > 0 {
      HandedOverIsSome(states, a - 1);
      if HandedOver(states, a) != here {
        var b, i :| StreamAt(states, a - 1, b, i, HandedOver(states, a - 1));
        assert StreamAt(states, a, b, i, HandedOver(states, a));
      }
    }
  }

  lemma HandedOverAgrees(n: nat, states: seq<State>, steps: seq<Step>, a: nat, b: nat, i: nat)
    requires Run(n, states, steps) && a < |states| && b < |states| && i < |states[b].servers|
    ensures Comparable(HandedOver(states, a), states[b].servers[i].applyCh)
  {
    hide Run;
    HandedOverIsSome(states, a);
    if HandedOver(states, a) != [] {
      var c, j :| StreamAt(states, a, c, j, HandedOver(states, a));
      StreamsAgree(n, states, steps, c, b, j, i);
    }
  }

  /** Each server's stream is a prefix of one log that never changes what it holds. */
  lemma OneLog(n: nat, states: seq<State>, steps: seq<Step>, a: nat, b: nat, i: nat)
    requires Run(n, states, steps) && a <= b < |states| && i < |states[a].servers|
    ensures states[a].servers[i].applyCh <= HandedOver(states, a) <= HandedOver(states, b)
  {
    hide Run;
    HandedOverAgrees(n, states, steps, a, a, i);
    HandedOverIsSome(states, a);
    HandedOverIsSome(states, b);
    LogGrows(n, states, steps, a, b);
    assert |states[a].servers[i].applyCh| <= |HandedOver(states, a)|;
  }

  lemma LogGrows(n: nat, states: seq<State>, steps: seq<Step>, a: nat, b: nat)
    requires Run(n, states, steps) && a <= b < |states|
    ensures HandedOver(states, a) <= HandedOver(states, b)
  {
    hide Run;
    HandedOverIsSome(states, a);
    LongerLater(states, a, b);
    HandedOverIsSome(states, b);
    if HandedOver(states, a) != [] {
      var c, j :| StreamAt(states, a, c, j, HandedOver(states, a));
      HandedOverAgrees(n, states, steps, b, c, j);
    }
  }

  lemma {:induction false} LongerLater(states: seq<State>, a: nat, b: nat)
    requires a <= b < |states|
    ensures |HandedOver(states, a)| <= |HandedOver(states, b)|
    decreases b
  {
    if a < b { LongerLater(states, a, b - 1); }
  }

  // ----- only submitted commands -----

  function Submitted(steps: seq<Step>, a: nat): set<Command>
    requires a <= |steps|
  {
    if a == 0 then {}
    else Submitted(steps, a - 1) + if steps[a - 1].Submit? then {steps[a - 1].command} else {}
  }

  ghost predicate AllIn(log: seq<Entry>, commands: set<Command>) {
    forall k :: 0 < k < |log| ==> log[k].command in commands
  }

  ghost predicate TermLogsIn(h: History, commands: set<Command>) {
    forall t :: t in h.termLog ==> AllIn(h.termLog[t], commands)
  }

  /** A log in order repeats what the leaders of its entries' terms held. */
  lemma LogIn(log: seq<Entry>, h: History, commands: set<Command>)
    requires LogOk(log, h.termLog) && TermLogsIn(h, commands)
    ensures AllIn(log, commands)
  {
    forall k | 0 < k < |log| ensures log[k].command in commands {
      assert Backed(log, h.termLog, k);
      var leader := h.termLog[log[k].term];
      assert AllIn(leader, commands) && log[..k + 1][k] == leader[..k + 1][k];
    }
  }

  lemma AllInGrows(log: seq<Entry>, a: set<Command>, b: set<Command>)
    requires AllIn(log, a) && a <= b
    ensures AllIn(log, b)
  {
  }

  lemma ServeVoteTermLog(s: State, rpc: Rpc)
    requires WellFormed(s) && rpc.VoteRpc? && rpc.dst < |s.servers|
    ensures DoServeVote(s, rpc).h.termLog == s.h.termLog
  {
  }

  lemma ServeAppendTermLog(s: State, rpc: Rpc, room: bool)
    requires WellFormed(s) && rpc.AppendRpc? && rpc.dst < |s.servers| && Servable(s.servers[rpc.dst], rpc.append)
    ensures DoServeAppend(s, rpc, room).h.termLog == s.h.termLog
  {
  }

  lemma TakeVoteTermLog(s: State, rpc: Rpc, reply: VoteReply)
    requires WellFormed(s) && rpc.VoteRpc? && rpc.src < |s.servers|
    ensures var h := DoTakeVote(s, rpc, reply).h;
            forall t :: t in h.termLog ==> (t in s.h.termLog && h.termLog[t] == s.h.termLog[t]) || h.termLog[t] == s.servers[rpc.src].log
  {
  }

  lemma StepSubmits(s: State, step: Step, before: set<Command>, after: set<Command>)
    requires Inv(s) && WellFormed(s) && Enabled(s, step) && TermLogsIn(s.h, before)
    requires before <= after && (step.Submit? ==> step.command in after)
    ensures TermLogsIn(Do(s, step).h, after)
  {
    hide Inv, HandleVoteReply, HandleAppendReply, HandleAppendEntries, HandleRequestVote, PrepareAppend, LogOk;
    forall t | t in s.h.termLog ensures AllIn(s.h.termLog[t], after) {
      AllInGrows(s.h.termLog[t], before, after);
    }
    match step
    case ServeVote(rpc) => ServeVoteTermLog(s, rpc);
    case ServeAppend(rpc, room) => ServeAppendTermLog(s, rpc, room);
    case TakeVote(rpc, reply) =>
      LogInOrder(s, rpc.src);
      LogIn(s.servers[rpc.src].log, s.h, after);
      TakeVoteTermLog(s, rpc, reply);
    case Submit(i, command) =>
      LogInOrder(s, i);
      LogIn(s.servers[i].log, s.h, after);
    case _ =>
  }

  lemma {:induction false} RunSubmits(n: nat, states: seq<State>, steps: seq<Step>, a: nat)
    requires Run(n, states, steps) && a < |states|
    ensures TermLogsIn(states[a].h, Submitted(steps, a))
    decreases a
  {
    hide Inv, Do, Enabled;
    if a > 0 {
      RunSubmits(n, states, steps, a - 1);
      RunInv(n, states, steps, a - 1);
      assert Next(states[a - 1], steps[a - 1], states[a - 1 + 1]);
      StepSubmits(states[a - 1], steps[a - 1], Submitted(steps, a - 1), Submitted(steps, a));
    }
  }

  /** A server only ever hands over commands somebody submitted before. */
  lemma NothingInvented(n: nat, states: seq<State>, steps: seq<Step>, a: nat, i: nat)
    requires Run(n, states, steps) && a < |states| && i < |states[a].servers|
    ensures forall k :: 0 <= k < |states[a].servers[i].applyCh| ==>
              states[a].servers[i].applyCh[k].index == k + 1
              && states[a].servers[i].applyCh[k].command in Submitted(steps, a)
  {
    assert |states| == |steps| + 1;
    hide Run, Inv, LogOk;
    RunInv(n, states, steps, a);
    LogInOrder(states[a], i);
    RunSubmits(n, states, steps, a);
    LogIn(states[a].servers[i].log, states[a].h, Submitted(steps, a));
    AppliesInOrder(n, states, steps, a, i);
  }

  // ----- the service's log -----

  lemma {:induction false} SubmittedGrows(steps: seq<Step>, a: nat, b: nat)
    requires a <= b <= |steps|
    ensures Submitted(steps, a) <= Submitted(steps, b)
    decreases b
  {
    if a < b { SubmittedGrows(steps, a, b - 1); }
  }

  ghost predicate InSeries(msgs: seq<ApplyMsg>, commands: set<Command>) {
    forall k :: 0 <= k < |msgs| ==> msgs[k].index == k + 1 && msgs[k].command in commands
  }

  /** The handed-over log holds submitted commands, each with its index. */
  lemma LogIsSubmitted(n: nat, states: seq<State>, steps: seq<Step>, a: nat)
    requires Run(n, states, steps) && a < |states|
    ensures a <= |steps| && InSeries(HandedOver(states, a), Submitted(steps, a))
  {
    assert |states| == |steps| + 1;
    hide Run;
    HandedOverIsSome(states, a);
    if HandedOver(states, a) != [] {
      var b, i :| StreamAt(states, a, b, i, HandedOver(states, a));
      NothingInvented(n, states, steps, b, i);
      SubmittedGrows(steps, b, a);
    }
  }

  /** The operations a series of messages carries. */
  function Operations(msgs: seq<ApplyMsg>): seq<Kv.Operation>
    requires forall k :: 0 <= k < |msgs| ==> msgs[k].command.Op?
  {
    seq(|msgs|, k requires 0 <= k < |msgs| => msgs[k].command)
  }

  ghost predicate CommitsOnly(states: seq<Service.State>, steps: seq<Service.Step>) {
    |states| == |steps| + 1
    && forall k :: 0 <= k < |steps| ==> steps[k].Commit? && Service.Next(states[k], steps[k], states[k + 1])
  }

  lemma {:induction false} CommitAll(s: Service.State, ops: seq<Kv.Operation>)
    returns (after: seq<Service.State>, commits: seq<Service.Step>)
    requires forall k :: 0 <= k < |ops| ==> ops[k] in s.requests
    ensures CommitsOnly(after, commits) && after[0] == s && after[|commits|] == s.(log := s.log + ops)
    decreases |ops|
  {
    if ops == [] {
      assert s.log + ops == s.log;
      after, commits := [s], [];
    } else {
      var t := Service.Do(s, Service.Commit(ops[0]));
      var rest, more := CommitAll(t, ops[1..]);
      assert t.log + ops[1..] == s.log + ops;
      after, commits := [s] + rest, [Service.Commit(ops[0])] + more;
      forall k | 0 <= k < |commits| ensures commits[k].Commit? && Service.Next(after[k], commits[k], after[k + 1]) {
        if k > 0 { assert Service.Next(rest[k - 1], more[k - 1], rest[k - 1 + 1]); }
      }
    }
  }

  /** Raft is such a log as the service runs on: when everything submitted to it is a request of the
      service, whatever a stretch of a Raft run adds to the log comes about by Commit steps, and
      what any server has handed over is a prefix of it, entry by entry. */
  lemma ServiceFollows(n: nat, states: seq<State>, steps: seq<Step>, a: nat, b: nat, s: Service.State)
    returns (after: seq<Service.State>, commits: seq<Service.Step>)
    requires Run(n, states, steps) && a <= b < |states| && b <= |steps|
    requires forall c :: c in Submitted(steps, b) ==> c.Op? && c in s.requests
    requires (forall k :: 0 <= k < |HandedOver(states, a)| ==> HandedOver(states, a)[k].command.Op?)
             && s.log == Operations(HandedOver(states, a))
    ensures CommitsOnly(after, commits) && after[0] == s
    ensures var t := after[|commits|];
            t == s.(log := t.log)
            && forall i :: 0 <= i < |states[b].servers| ==> Follows(states[b].servers[i].applyCh, t.log)
  {
    hide Run, HandedOver, Submitted, CommitsOnly, Operations, Follows;
    var x, y := HandedOver(states, a), HandedOver(states, b);
    LogIsSubmitted(n, states, steps, b);
    LogGrows(n, states, steps, a, b);
    after, commits := CommitRest(s, x, y);
    forall i | 0 <= i < |states[b].servers| ensures Follows(states[b].servers[i].applyCh, Operations(y)) {
      OneLog(n, states, steps, b, b, i);
      PrefixFollows(states[b].servers[i].applyCh, y);
    }
  }

  lemma CommitRest(s: Service.State, x: seq<ApplyMsg>, y: seq<ApplyMsg>)
    returns (after: seq<Service.State>, commits: seq<Service.Step>)
    requires x <= y && forall k :: 0 <= k < |y| ==> y[k].command.Op? && y[k].command in s.requests
    requires s.log == Operations(x)
    ensures CommitsOnly(after, commits) && after[0] == s && after[|commits|] == s.(log := Operations(y))
  {
    var ops := Operations(y)[|x|..];
    assert s.log + ops == Operations(y);
    after, commits := CommitAll(s, ops);
  }

  lemma PrefixFollows(applyCh: seq<ApplyMsg>, y: seq<ApplyMsg>)
    requires applyCh <= y && forall k :: 0 <= k < |y| ==> y[k].command.Op? && y[k].index == k + 1
    ensures Follows(applyCh, Operations(y))
  {
  }

  /** What one server has handed over is this log from its start, each entry with its index. */
  ghost predicate Follows(applyCh: seq<ApplyMsg>, log: seq<Kv.Operation>) {
    |applyCh| <= |log| && forall k :: 0 <= k < |applyCh| ==> applyCh[k] == ApplyMsg(k + 1, log[k])
  }
}
