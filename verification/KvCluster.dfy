/** The store service on the Raft cluster that compacts: every server owns a peer, submits to it what its
    handlers are asked, applies what it hands over, asks it to compact, and crashes with it. */
module KvCluster {
  import opened Commands
  import opened RaftServer
  import opened RaftReplication
  import opened RaftSystem
  import opened RaftCompacted
  import opened RaftCompactedRuns
  import Kv
  import Service = KvSystem

  /** `consumed` says how many messages of this incarnation each apply loop has taken from its peer's
      channel.  The service's log is history: what has been handed over, by index. */
  datatype Cluster = Cluster(raft: State, service: Service.State, consumed: seq<nat>)

  datatype Event =
    | Raft(step: Step)                                    // one region of one peer
    | Start(i: nat, op: Kv.Operation)                     // a handler's Start
    | Apply(i: nat, to: Kv.Operation, full: bool)         // one turn of an apply loop
    | Cut(i: nat, index: nat)                             // a Compaction asked for before
    | Crash(i: nat)                                       // a server and its peer go down and come back
    | Local(act: Service.Step)                            // clerks, and handlers that listen or time out

  function Initially(clerks: nat, servers: nat): Cluster {
    Cluster(RaftSystem.Init(servers), Service.Init(clerks, servers), seq(servers, i => 0))
  }

  /** The log grows by the entry after its last when that is first handed over. */
  function Recorded(log: seq<Kv.Operation>, stream: seq<ApplyMsg>): seq<Kv.Operation>
    decreases |stream|
  {
    if stream == [] then log
    else
      var m := stream[0];
      Recorded(if m.index == |log| + 1 && m.command.Op? then log + [m.command] else log, stream[1..])
  }

  function StreamOf(r: State, i: nat): seq<ApplyMsg> {
    if i < |r.servers| then r.servers[i].applyCh else []
  }

  predicate Sized(s: Cluster) {
    WellFormed(s.raft) && |s.consumed| == |s.raft.servers| == |s.service.servers|
  }

  /** The message that server i's loop takes next. */
  predicate HasNext(s: Cluster, i: nat) {
    Sized(s) && i < |s.consumed| && s.consumed[i] < |s.raft.servers[i].applyCh|
    && s.raft.servers[i].applyCh[s.consumed[i]].command.Op? && s.raft.servers[i].applyCh[s.consumed[i]].index >= 1
  }

  function NextOf(s: Cluster, i: nat): ApplyMsg
    requires HasNext(s, i)
  {
    s.raft.servers[i].applyCh[s.consumed[i]]
  }

  predicate IsLocal(act: Service.Step) {
    act.Invoke? || act.Listen? || act.Timeout? || act.Return?
  }

  predicate Occurs(s: Cluster, e: Event) {
    Sized(s)
    && match e
       case Raft(step) => !step.Submit? && !step.Restart? && Enabled(s.raft, step)
       case Start(i, op) => i < |s.consumed| && op in s.service.requests
       case Apply(i, to, _) =>
         HasNext(s, i)
         && (Service.Answers(s.service.servers[i].replica.callBack, NextOf(s, i).command) ==>
               to in s.service.servers[i].waiting && to.clientId == NextOf(s, i).command.clientId)
       case Cut(i, index) =>
         Service.Enabled(s.service, Service.Cut(i, index))
         && (index > s.service.servers[i].last ==> Allowed(s.raft, Compaction(i, index)))
       case Crash(i) => i < |s.consumed| && Enabled(s.raft, Restart(i))
       case Local(act) => IsLocal(act) && Service.Enabled(s.service, act)
  }

  /** A turn of server i's loop, on the message as it comes. */
  function Turned(v: Service.State, i: nat, m: ApplyMsg, to: Kv.Operation, full: bool): Service.State
    requires i < |v.servers| && m.command.Op? && m.index >= 1
  {
    var srv := v.servers[i].(delivered := m.index - 1);
    var t := Service.DeliverTo(srv, m.command, to, full);
    v.(servers := v.servers[i := t],
       replies := if Service.Answers(srv.replica.callBack, m.command)
                  then v.replies + {Service.Reply(to, Service.Answer(t.replica.store, m.command), t.covered)} else v.replies)
  }

  function After(s: Cluster, e: Event): Cluster
    requires Occurs(s, e)
  {
    match e
    case Raft(step) =>
      var r := Do(s.raft, step);
      s.(raft := r, service := s.service.(log := Recorded(s.service.log, StreamOf(r, Actor(step)))))
    case Start(i, op) => s.(raft := Do(s.raft, Submit(i, op)))
    case Apply(i, to, full) =>
      s.(service := Turned(s.service, i, NextOf(s, i), to, full), consumed := s.consumed[i := s.consumed[i] + 1])
    case Cut(i, index) =>
      s.(service := Service.Do(s.service, Service.Cut(i, index)),
         raft := if index > s.service.servers[i].last then Make(s.raft, Compaction(i, index)) else s.raft)
    case Crash(i) =>
      Cluster(Do(s.raft, Restart(i)), Service.Do(s.service, Service.Restart(i)), s.consumed[i := 0])
    case Local(act) => s.(service := Service.Do(s.service, act))
  }

  ghost predicate ClusterRun(clerks: nat, servers: nat, states: seq<Cluster>, events: seq<Event>) {
    |states| == |events| + 1 && states[0] == Initially(clerks, servers)
    && forall k :: 0 <= k < |events| ==> Occurs(states[k], events[k]) && states[k + 1] == After(states[k], events[k])
  }

  /** No handler overtakes one of a call in progress. */
  predicate InOrder(s: Cluster, e: Event) {
    e.Local? ==> Service.InOrder(s.service, e.act)
  }

  ghost predicate OrderedRun(clerks: nat, servers: nat, states: seq<Cluster>, events: seq<Event>) {
    ClusterRun(clerks, servers, states, events) && forall k :: 0 <= k < |events| ==> InOrder(states[k], events[k])
  }

  // ----- recording -----

  /** Consecutive messages from `first` on, with commands. */
  ghost predicate Series(stream: seq<ApplyMsg>, first: nat) {
    forall p :: 0 <= p < |stream| ==> stream[p].index == first + p && stream[p].command.Op?
  }

  /** Recording a series that starts no later than the entry after the last adds just its messages beyond
      the last. */
  lemma {:induction false} RecordedExact(log: seq<Kv.Operation>, stream: seq<ApplyMsg>, first: nat)
    requires Series(stream, first) && 1 <= first <= |log| + 1
    ensures var r := Recorded(log, stream);
            log <= r && |r| == (if first + |stream| - 1 > |log| then first + |stream| - 1 else |log|)
            && forall k :: |log| <= k < |r| ==> 0 <= k + 1 - first < |stream| && r[k] == stream[k + 1 - first].command
    decreases |stream|
  {
    if stream != [] {
      var m := stream[0];
      var next := if m.index == |log| + 1 && m.command.Op? then log + [m.command] else log;
      assert forall p :: 0 <= p < |stream[1..]| ==> stream[1..][p] == stream[p + 1];
      RecordedExact(next, stream[1..], first + 1);
    }
  }

  // ----- a peer's stream only grows -----

  lemma {:induction false} ApplyAppends(s: Server)
    requires Contiguous(s.log)
    ensures s.applyCh <= ApplyLog(s).applyCh
    decreases s.commitIndex - s.lastApplied
  {
    hide GetLogEntry, Contiguous;
    if s.commitIndex > s.lastApplied {
      var t := s.(lastApplied := s.lastApplied + 1);
      ApplyAppends(match GetLogEntry(t.log, t.lastApplied)
                   case Some(e) => t.(applyCh := t.applyCh + [ApplyMsg(e.index, e.command)])
                   case None => t);
    }
  }

  lemma AppendAppends(s: Server, args: AppendArgs, room: bool)
    requires Contiguous(s.log) && Servable(s, args)
    ensures s.applyCh <= HandleAppendEntries(s, args, room).0.applyCh
  {
    hide Contiguous, AppendArgsOk, PrevMatches, AppendNew, DeleteConflicts, HandleAppendEntries, ApplyLog, LastNewIndex;
    if args.term < s.currentTerm {
      IgnoresOldTerm(s, args, room);
    } else {
      Listens(s, args, room);
      if PrevMatches(s.log, args) {
        ApplyAppends(WithMerged(Listening(s, args, room), args).(commitIndex := Min(args.leaderCommit, LastNewIndex(args))));
      }
    }
  }

  lemma ReplyAppends(s: Server, peers: nat, peer: nat, args: AppendArgs, reply: AppendReply)
    requires Contiguous(s.log)
    ensures s.applyCh <= HandleAppendReply(s, peers, peer, args, reply).applyCh
  {
    hide Contiguous, ApplyLog, CountMatches, TermAt, Backup;
    var target := args.prevLogIndex + |args.entries|;
    ApplyAppends(s.(nextIndex := s.nextIndex[peer := target + 1], matchIndex := s.matchIndex[peer := target], commitIndex := target));
  }

  lemma VotesAppendNothing(s: Server, args: VoteArgs, peers: nat, peer: nat, reply: VoteReply)
    requires Contiguous(s.log)
    ensures HandleRequestVote(s, args).0.applyCh == s.applyCh
    ensures HandleVoteReply(s, peers, peer, args, reply).applyCh == s.applyCh
  {
  }

  lemma StreamGrows(s: State, step: Step, i: nat)
    requires WellFormed(s) && Enabled(s, step) && step != Restart(i) && i < |s.servers|
    ensures |Do(s, step).servers| == |s.servers| && s.servers[i].applyCh <= Do(s, step).servers[i].applyCh
  {
    hide HandleRequestVote, HandleVoteReply, HandleAppendEntries, HandleAppendReply, Contiguous, Boot, AppendArgsOk, Deliveries,
         PrepareAppend, Servable;
    var srv := s.servers[i];
    match step
    case ServeVote(rpc) => VotesAppendNothing(srv, rpc.vote, 0, 0, VoteReply(0, false));
    case TakeVote(rpc, reply) => VotesAppendNothing(srv, rpc.vote, |s.servers|, rpc.dst, reply);
    case ServeAppend(rpc, room) => if rpc.dst == i { AppendAppends(srv, rpc.append, room); }
    case TakeAppend(rpc, reply) => ReplyAppends(srv, |s.servers|, rpc.dst, rpc.append, reply);
    case _ =>
  }

  lemma SubmitHandsNothing(s: State, i: nat, command: Command, j: nat)
    requires WellFormed(s) && Enabled(s, Submit(i, command)) && j < |s.servers|
    ensures |Do(s, Submit(i, command)).servers| == |s.servers|
    ensures Do(s, Submit(i, command)).servers[j].applyCh == s.servers[j].applyCh
  {
  }
}
