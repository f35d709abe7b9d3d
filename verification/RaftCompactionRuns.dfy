/** Compaction in a running cluster: what an incarnation has applied stays in its server's log for
    good, so the log may be cut there, across restarts, and in every reachable state the handlers
    compute on the rest what they compute on the whole. */
module RaftCompactionRuns {
  import opened Commands
  import opened RaftServer
  import opened RaftCore
  import opened RaftCoreSteps
  import opened RaftCommitted
  import opened RaftReconcile
  import opened RaftServerInv
  import opened RaftReplication
  import opened RaftSystem
  import opened RaftSafety
  import opened RaftTheorems
  import opened RaftCompaction

  // ----- what stays in the log -----

  /** Entry b and all before it are committed, so they stay in this server's log. */
  ghost predicate Kept(c: Core, srv: Server, b: nat) {
    b < |srv.log| && Settled(c, srv.log[..b + 1], srv.currentTerm)
  }

  lemma AppliedKept(s: State, i: nat, b: nat)
    requires Inv(s) && i < |s.servers| && b <= s.servers[i].lastApplied
    ensures Kept(CoreOf(s), s.servers[i], b)
  {
    hide Inv, CoreOf, Settled;
    CommitIndexInLog(s, i);
    var srv := s.servers[i];
    SettledShorter(CoreOf(s), CommittedPrefix(srv), b + 1, srv.currentTerm);
    assert CommittedPrefix(srv)[..b + 1] == srv.log[..b + 1];
  }

  /** The leader whose message this is holds all that the receiver keeps. */
  lemma SenderHolds(c: Core, srv: Server, src: nat, args: AppendArgs, b: nat)
    requires CoreInv(c) && Kept(c, srv, b) && Segment(c.h, src, args) && args.term >= srv.currentTerm
    ensures srv.log[..b + 1] <= c.h.termLog[args.term]
  {
    hide CoreInv, Settled;
    SettledInCore(c, srv.log[..b + 1], srv.currentTerm, args.term);
  }

  /** So its entries agree with what is kept, and the entry before them is found there. */
  lemma SegmentAgrees(h: History, log: seq<Entry>, src: nat, args: AppendArgs, b: nat)
    requires Segment(h, src, args) && TermLogsOk(h) && Uncompacted(log) && Contiguous(log)
    requires b < |log| && log[..b + 1] <= h.termLog[args.term]
    ensures AgreesUpTo(log, b, args.entries)
    ensures args.prevLogIndex <= b ==> PrevMatches(log, args)
  {
    var kept, leader := log[..b + 1], h.termLog[args.term];
    assert LogOk(leader, h.termLog);
    forall k | 0 <= k < |args.entries| && args.entries[k].index <= b
      ensures args.entries[k].term == log[args.entries[k].index].term
    {
      var at := args.entries[k].index;
      assert args.entries[k] == leader[args.prevLogIndex + 1 + k] && at == args.prevLogIndex + 1 + k;
      assert kept[at] == leader[at];
    }
    if args.prevLogIndex <= b { assert kept[args.prevLogIndex] == leader[args.prevLogIndex]; }
  }

  /** Accepting its entries leaves what is kept alone, and brings the log to the last of them. */
  lemma MergeLeaves(c: Core, srv: Server, v: nat, src: nat, args: AppendArgs, b: nat)
    requires Good(c, srv, v) && Segment(c.h, src, args) && args.term >= srv.currentTerm && Kept(c, srv, b)
    requires Contiguous(srv.log) && AppendArgsOk(srv.log, args) && PrevMatches(srv.log, args)
    ensures var log := WithMerged(srv, args).log;
            b < |log| && log[..b + 1] == srv.log[..b + 1] && args.prevLogIndex + |args.entries| < |log|
  {
    hide CoreInv, ServerOk, Contiguous, AppendArgsOk, PrevMatches, AppendNew, DeleteConflicts, Settled, Segment, HistGrows;
    var d, s1, m := TermSeen(c, v, args.term), CheckCurrentTerm(srv, args.term), args.prevLogIndex + |args.entries|;
    CheckTermKeeps(c, srv, v, args.term);
    SettledGrows(c, d, srv.log[..b + 1], srv.currentTerm, s1.currentTerm);
    AcceptedInCore(d, s1, v, src, args);
    AcceptLeaves(d, s1, v, m, b);
  }

  lemma AcceptedInCore(c: Core, srv: Server, v: nat, src: nat, args: AppendArgs)
    requires Good(c, srv, v) && Segment(c.h, src, args) && args.term == srv.currentTerm
    requires Contiguous(srv.log) && AppendArgsOk(srv.log, args) && PrevMatches(srv.log, args)
    ensures var m := args.prevLogIndex + |args.entries|;
            MayAccept(c, v, m) && WithMerged(srv, args).log == Accept(c, v, m).nodes[v].log
            && m < |WithMerged(srv, args).log|
  {
    hide ElectionLogs, LeadersHold, ElectionLeaders, BallotsOk, CampaignsOk, AcksOk, AcksHeld, BallotsHeld, ElectionVotes,
         LeaderAcks, ServerOk, AppendArgsOk, PrevMatches, AppendNew, DeleteConflicts, Contiguous, LogOk, NodesOk, TermLogsOk;
    AcceptedLog(c, srv, v, src, args);
    AcceptedPrefix(c, v, args.prevLogIndex + |args.entries|);
  }

  lemma AcceptLeaves(c: Core, srv: Server, v: nat, m: nat, b: nat)
    requires Good(c, srv, v) && MayAccept(c, v, m) && Kept(c, srv, b)
    ensures var r := Accept(c, v, m).nodes[v].log; b < |r| && r[..b + 1] == srv.log[..b + 1]
  {
    hide NodesOk, ElectionLeaders, BallotsOk, CampaignsOk, AcksOk, AcksHeld, BallotsHeld, ElectionVotes,
         LeaderAcks, ServerOk, Settled, TermLogsOk, ElectionLogs, LeadersHold;
    AcceptKeepsSettled(c, v, m, b);
  }

  // ----- every step keeps it -----

  /** r comes after srv: no older term, and nothing up to b lost. */
  ghost predicate Continues(srv: Server, r: Server, b: nat) {
    b < |srv.log| && b < |r.log| && r.log[..b + 1] == srv.log[..b + 1] && srv.currentTerm <= r.currentTerm
  }

  lemma {:induction false} ApplyOnly(s: Server)
    requires Contiguous(s.log)
    ensures var r := ApplyLog(s); r.log == s.log && r.currentTerm == s.currentTerm
    decreases s.commitIndex - s.lastApplied
  {
    hide GetLogEntry, Contiguous;
    if s.commitIndex > s.lastApplied {
      var t := s.(lastApplied := s.lastApplied + 1);
      ApplyOnly(match GetLogEntry(t.log, t.lastApplied)
                case Some(e) => t.(applyCh := t.applyCh + [ApplyMsg(e.index, e.command)])
                case None => t);
    }
  }

  lemma VotesContinue(srv: Server, args: VoteArgs, peers: nat, peer: nat, reply: VoteReply, b: nat)
    requires Contiguous(srv.log) && b < |srv.log|
    ensures Continues(srv, HandleRequestVote(srv, args).0, b)
    ensures Continues(srv, HandleVoteReply(srv, peers, peer, args, reply), b)
  {
  }

  lemma AppendReplyContinues(srv: Server, peers: nat, peer: nat, args: AppendArgs, reply: AppendReply, b: nat)
    requires Contiguous(srv.log) && b < |srv.log|
    ensures Continues(srv, HandleAppendReply(srv, peers, peer, args, reply), b)
  {
    hide Contiguous, ApplyLog, CountMatches, TermAt, Backup;
    var target := args.prevLogIndex + |args.entries|;
    ApplyOnly(srv.(nextIndex := srv.nextIndex[peer := target + 1], matchIndex := srv.matchIndex[peer := target],
                   commitIndex := target));
  }

  lemma SubmitContinues(srv: Server, command: Command, b: nat)
    requires Contiguous(srv.log) && b < |srv.log|
    ensures Continues(srv, StartCommand(srv, command).0, b)
  {
    var log := srv.log + [Entry(srv.currentTerm, LastIndex(srv.log) + 1, command)];
    assert log[..b + 1] == srv.log[..b + 1];
  }

  lemma BootContinues(srv: Server, b: nat)
    requires Synced(srv) && b < |srv.log|
    ensures Continues(srv, Boot(srv.disk), b)
  {
  }

  lemma AppendContinues(c: Core, srv: Server, v: nat, src: nat, args: AppendArgs, room: bool, b: nat)
    requires Good(c, srv, v) && AppendArgsSent(c, src, args) && Kept(c, srv, b)
    requires Contiguous(srv.log) && Servable(srv, args)
    ensures Continues(srv, HandleAppendEntries(srv, args, room).0, b)
  {
    hide CoreInv, ServerOk, Contiguous, AppendArgsOk, PrevMatches, AppendNew, DeleteConflicts, Settled, Segment, At,
         HandleAppendEntries, Listening, ApplyLog;
    if args.term < srv.currentTerm {
      IgnoresOldTerm(srv, args, room);
    } else {
      Listens(srv, args, room);
      if PrevMatches(srv.log, args) {
        MergeLeaves(c, srv, v, src, args, b);
        var s3 := WithMerged(Listening(srv, args, room), args);
        ApplyOnly(s3.(commitIndex := Min(args.leaderCommit, LastNewIndex(args))));
      }
    }
  }

  lemma StepContinues(s: State, step: Step, i: nat, b: nat)
    requires Inv(s) && WellFormed(s) && Enabled(s, step) && i < |s.servers| && Kept(CoreOf(s), s.servers[i], b)
    ensures var t := Do(s, step); |t.servers| == |s.servers| && Continues(s.servers[i], t.servers[i], b)
  {
    hide CoreInv, ServerOk, CoreOf, NetOk, ServersOk, DeliveredOk, Settled, HandleRequestVote, HandleVoteReply,
         HandleAppendEntries, HandleAppendReply, StartCommand, AppendArgsOk, Contiguous, Boot, AppendArgsSent, Deliveries;
    var srv := s.servers[i];
    match step
    case ServeVote(rpc) => VotesContinue(srv, rpc.vote, 0, 0, VoteReply(0, false), b);
    case TakeVote(rpc, reply) => VotesContinue(srv, rpc.vote, |s.servers|, rpc.dst, reply, b);
    case Submit(_, command) => SubmitContinues(srv, command, b);
    case ServeAppend(rpc, room) =>
      MessageInNet(s, Request(rpc));
      if rpc.dst == i { InGoodOrder(s, i); AppendContinues(CoreOf(s), srv, i, rpc.src, rpc.append, room, b); }
    case TakeAppend(rpc, reply) => AppendReplyContinues(srv, |s.servers|, rpc.dst, rpc.append, reply, b);
    case Restart(_) => InGoodOrder(s, i); BootContinues(srv, b);
    case _ =>
  }

  lemma MessageInNet(s: State, m: Message)
    requires Inv(s) && m in s.net
    ensures MessageOk(CoreOf(s), m)
  {
  }

  lemma InGoodOrder(s: State, i: nat)
    requires Inv(s) && i < |s.servers|
    ensures Good(CoreOf(s), s.servers[i], i) && Contiguous(s.servers[i].log) && Uncompacted(s.servers[i].log)
    ensures Synced(s.servers[i]) && LogOk(s.servers[i].log, s.h.termLog)
  {
    hide CoreInv, NetOk, DeliveredOk;
    Member(s, i);
    LogInOrder(s, i);
  }

  lemma StepKept(s: State, step: Step, i: nat, b: nat)
    requires Inv(s) && WellFormed(s) && Enabled(s, step) && i < |s.servers| && Kept(CoreOf(s), s.servers[i], b)
    ensures var t := Do(s, step);
            i < |t.servers| && Kept(CoreOf(t), t.servers[i], b) && Continues(s.servers[i], t.servers[i], b)
  {
    hide Inv, Enabled, Do, HistGrows, CoreOf, Settled;
    StepContinues(s, step, i, b);
    StepKeeps(s, step);
    var t := Do(s, step);
    SettledGrows(CoreOf(s), CoreOf(t), s.servers[i].log[..b + 1], s.servers[i].currentTerm, t.servers[i].currentTerm);
  }

  lemma {:induction false} RunKept(n: nat, states: seq<State>, steps: seq<Step>, a: nat, z: nat, i: nat, b: nat)
    requires Run(n, states, steps) && a <= z < |states| && i < n && |states[a].servers| == n
    requires Kept(CoreOf(states[a]), states[a].servers[i], b)
    ensures |states[z].servers| == n && Kept(CoreOf(states[z]), states[z].servers[i], b)
    ensures Continues(states[a].servers[i], states[z].servers[i], b)
    decreases z - a
  {
    hide Inv, Enabled, Do, CoreOf, Kept;
    RunInv(n, states, steps, z);
    RunInv(n, states, steps, a);
    KeptInLog(CoreOf(states[a]), states[a].servers[i], b);
    if a < z {
      assert Next(states[a], steps[a], states[a + 1]);
      StepKept(states[a], steps[a], i, b);
      RunInv(n, states, steps, a + 1);
      RunKept(n, states, steps, a + 1, z, i, b);
    }
  }

  lemma KeptInLog(c: Core, srv: Server, b: nat)
    requires Kept(c, srv, b)
    ensures Continues(srv, srv, b)
  {
  }

  /** What any incarnation of a server has applied stays in that server's log for good. */
  lemma AppliedStaysInLog(n: nat, states: seq<State>, steps: seq<Step>, a: nat, z: nat, i: nat, b: nat)
    requires Run(n, states, steps) && a <= z < |states| && i < |states[a].servers| && b <= states[a].servers[i].lastApplied
    ensures i < |states[z].servers| && Kept(CoreOf(states[z]), states[z].servers[i], b)
    ensures Continues(states[a].servers[i], states[z].servers[i], b)
  {
    hide Inv, Kept, Continues;
    RunInv(n, states, steps, a);
    AppliedKept(states[a], i, b);
    RunKept(n, states, steps, a, z, i, b);
  }

  // ----- which cuts there can be -----

  /** The incarnation of server i that state a finds began in state r. */
  ghost predicate Began(steps: seq<Step>, i: nat, r: nat, a: nat) {
    r <= a <= |steps| && (r == 0 || steps[r - 1] == Restart(i)) && forall k :: r <= k < a ==> steps[k] != Restart(i)
  }

  /** Server i had applied `index` in some state up to r. */
  ghost predicate AppliedBy(states: seq<State>, i: nat, r: nat, index: nat) {
    exists c :: 0 <= c <= r && c < |states| && i < |states[c].servers| && index <= states[c].servers[i].lastApplied
  }

  /** In state a the log of server i may begin at b: its incarnation, begun in state r, was started
      from a log that began at an index applied before, and has since cut only at what it applied. */
  ghost predicate CutAt(states: seq<State>, steps: seq<Step>, i: nat, r: nat, a: nat, from: nat, b: nat) {
    Began(steps, i, r, a) && AppliedBy(states, i, r, from)
    && a < |states| && i < |states[a].servers| && from <= b <= Later(from, states[a].servers[i].lastApplied)
  }

  /** Uncut at first; every step but a restart leaves the cut possible, cutting at an applied index
      makes the next one, and a restart starts from what the persisted log still holds. */
  lemma CutsGoOn(n: nat, states: seq<State>, steps: seq<Step>, i: nat, r: nat, a: nat, from: nat, b: nat, index: nat)
    requires Run(n, states, steps) && i < n
    ensures CutAt(states, steps, i, 0, 0, 0, 0)
    ensures CutAt(states, steps, i, r, a, from, b) && b <= index <= states[a].servers[i].lastApplied ==>
              CutAt(states, steps, i, r, a, from, index)
    ensures CutAt(states, steps, i, r, a, from, b) && a < |steps| ==>
              if steps[a] == Restart(i) then CutAt(states, steps, i, a + 1, a + 1, b, b)
              else CutAt(states, steps, i, r, a + 1, from, b)
  {
    hide Inv, Next;
    FirstCut(n, states, steps, i);
    if CutAt(states, steps, i, r, a, from, b) && a < |steps| {
      RunInv(n, states, steps, a);
      RunInv(n, states, steps, a + 1);
      if steps[a] == Restart(i) {
        CutAfterRestart(states, steps, i, r, a, from, b);
      } else {
        CommitNeverGoesBack(n, states, steps, a, i);
        CommitIndexInLog(states[a], i);
        CommitIndexInLog(states[a + 1], i);
      }
    }
  }

  lemma FirstCut(n: nat, states: seq<State>, steps: seq<Step>, i: nat)
    requires Run(n, states, steps) && i < n
    ensures CutAt(states, steps, i, 0, 0, 0, 0)
  {
    assert 0 <= states[0].servers[i].lastApplied;
  }

  lemma CutAfterRestart(states: seq<State>, steps: seq<Step>, i: nat, r: nat, a: nat, from: nat, b: nat)
    requires CutAt(states, steps, i, r, a, from, b) && a < |steps| && steps[a] == Restart(i)
    requires a + 1 < |states| && i < |states[a + 1].servers|
    ensures CutAt(states, steps, i, a + 1, a + 1, b, b)
  {
    if b > from {
      assert b <= states[a].servers[i].lastApplied;
    } else {
      var c :| 0 <= c <= r && c < |states| && i < |states[c].servers| && from <= states[c].servers[i].lastApplied;
    }
  }

  lemma FromKept(n: nat, states: seq<State>, steps: seq<Step>, i: nat, r: nat, a: nat, from: nat)
    requires Run(n, states, steps) && AppliedBy(states, i, r, from) && r <= a < |states| && i < |states[a].servers|
    ensures Kept(CoreOf(states[a]), states[a].servers[i], from)
  {
    hide Run, Kept, Continues, CoreOf;
    var c :| 0 <= c <= r && c < |states| && i < |states[c].servers| && from <= states[c].servers[i].lastApplied;
    AppliedStaysInLog(n, states, steps, c, a, i, from);
  }

  /** Every such cut leaves a log the handlers can work on, and cuts nothing that could still change. */
  lemma CutViews(n: nat, states: seq<State>, steps: seq<Step>, i: nat, r: nat, a: nat, from: nat, b: nat)
    requires Run(n, states, steps) && CutAt(states, steps, i, r, a, from, b)
    ensures Inv(states[a]) && MayView(states[a].servers[i], from, b) && Kept(CoreOf(states[a]), states[a].servers[i], b)
  {
    hide Run, Inv, Kept, CoreOf, AppliedBy, Uncompacted, Contiguous, AppliedInOrder;
    var s := states[a];
    RunInv(n, states, steps, a);
    FromKept(n, states, steps, i, r, a, from);
    if b != from { AppliedKept(s, i, b); }
    KeptInLog(CoreOf(s), s.servers[i], b);
    CommitIndexInLog(s, i);
    InGoodOrder(s, i);
  }

  // ----- what an incarnation leads, it was elected to after it began -----

  /** No call was made by an incarnation still to come. */
  ghost predicate EpochsOk(s: State) {
    |s.epochs| == |s.servers|
    && forall m :: m in s.net ==> m.rpc.src < |s.epochs| && m.rpc.epoch <= s.epochs[m.rpc.src]
  }

  ghost predicate OwnAppend(s: State, i: nat, m: Message) {
    m.rpc.AppendRpc? && m.rpc.src == i < |s.epochs| && m.rpc.epoch == s.epochs[i]
  }

  ghost predicate FreshServer(srv: Server, t: nat) {
    t <= srv.currentTerm && (forall u :: u in srv.tallies ==> t < u) && (srv.role == Leader ==> t < srv.currentTerm)
  }

  /** All that this incarnation of server i campaigned for, led or sent is of terms beyond t. */
  ghost predicate Fresh(s: State, i: nat, t: nat) {
    i < |s.servers| && FreshServer(s.servers[i], t)
    && forall m :: m in s.net && OwnAppend(s, i, m) ==> t < m.rpc.append.term
  }

  lemma EpochsStep(s: State, step: Step)
    requires EpochsOk(s) && WellFormed(s) && Enabled(s, step)
    ensures EpochsOk(Do(s, step))
  {
    hide HandleRequestVote, HandleVoteReply, HandleAppendEntries, HandleAppendReply, StartCommand, StartElection,
         PrepareAppend, Boot, AppendArgsOk, Contiguous, Deliveries;
  }

  lemma {:induction false} RunEpochs(n: nat, states: seq<State>, steps: seq<Step>, k: nat)
    requires Run(n, states, steps) && k < |states|
    ensures EpochsOk(states[k])
  {
    hide Enabled, Do, EpochsOk;
    if k == 0 {
      FirstEpochs(n);
    } else {
      RunEpochs(n, states, steps, k - 1);
      assert Next(states[k - 1], steps[k - 1], states[k]);
      EpochsStep(states[k - 1], steps[k - 1]);
    }
  }

  lemma FirstEpochs(n: nat)
    ensures EpochsOk(Init(n))
  {
  }

  lemma FreshVotes(srv: Server, t: nat, args: VoteArgs, peers: nat, peer: nat, reply: VoteReply, i: nat)
    requires FreshServer(srv, t) && Contiguous(srv.log)
    ensures FreshServer(HandleRequestVote(srv, args).0, t) && FreshServer(StartElection(srv, i).0, t)
    ensures FreshServer(HandleVoteReply(srv, peers, peer, args, reply), t)
  {
    hide Contiguous, LastIndex, LastTerm;
  }

  lemma {:induction false} ApplyQuietly(s: Server)
    requires Contiguous(s.log)
    ensures var r := ApplyLog(s); r == s.(lastApplied := r.lastApplied, applyCh := r.applyCh)
    decreases s.commitIndex - s.lastApplied
  {
    hide GetLogEntry, Contiguous;
    if s.commitIndex > s.lastApplied {
      var t := s.(lastApplied := s.lastApplied + 1);
      ApplyQuietly(match GetLogEntry(t.log, t.lastApplied)
                   case Some(e) => t.(applyCh := t.applyCh + [ApplyMsg(e.index, e.command)])
                   case None => t);
    }
  }

  lemma FreshReply(srv: Server, t: nat, peers: nat, peer: nat, args: AppendArgs, reply: AppendReply)
    requires FreshServer(srv, t) && Contiguous(srv.log)
    ensures FreshServer(HandleAppendReply(srv, peers, peer, args, reply), t)
  {
    hide Contiguous, ApplyLog, CountMatches, TermAt, Backup;
    var target := args.prevLogIndex + |args.entries|;
    ApplyQuietly(srv.(nextIndex := srv.nextIndex[peer := target + 1], matchIndex := srv.matchIndex[peer := target],
                      commitIndex := target));
  }

  lemma FreshAppend(srv: Server, t: nat, args: AppendArgs, room: bool)
    requires FreshServer(srv, t) && Contiguous(srv.log) && Servable(srv, args)
    ensures FreshServer(HandleAppendEntries(srv, args, room).0, t)
  {
    hide Contiguous, AppendArgsOk, PrevMatches, AppendNew, DeleteConflicts, HandleAppendEntries, ApplyLog, LastNewIndex;
    if args.term < srv.currentTerm {
      IgnoresOldTerm(srv, args, room);
    } else {
      Listens(srv, args, room);
      if PrevMatches(srv.log, args) {
        ApplyQuietly(WithMerged(Listening(srv, args, room), args).(commitIndex := Min(args.leaderCommit, LastNewIndex(args))));
      }
    }
  }

  lemma FreshSends(srv: Server, t: nat, i: nat, peer: nat)
    requires FreshServer(srv, t) && Contiguous(srv.log) && PrepareAppend(srv, i, peer).Send?
    ensures t < PrepareAppend(srv, i, peer).args.term
  {
  }

  lemma FreshStep(s: State, step: Step, i: nat, t: nat)
    requires Fresh(s, i, t) && WellFormed(s) && Enabled(s, step) && step != Restart(i)
    ensures Fresh(Do(s, step), i, t)
  {
    hide HandleRequestVote, HandleVoteReply, HandleAppendEntries, HandleAppendReply, StartElection,
         PrepareAppend, Boot, AppendArgsOk, Contiguous, Deliveries, FreshServer;
    var srv := s.servers[i];
    match step
    case EnterCandidate(_) => FreshRoles(srv, t);
    case StepDown(_) => FreshRoles(srv, t);
    case BeginElection(_) => FreshVotes(srv, t, VoteArgs(0, 0, 0, 0), 0, 0, VoteReply(0, false), i);
    case ServeVote(rpc) => FreshVotes(srv, t, rpc.vote, 0, 0, VoteReply(0, false), i);
    case TakeVote(rpc, reply) => FreshVotes(srv, t, rpc.vote, |s.servers|, rpc.dst, reply, i);
    case Submit(_, command) => FreshSubmit(srv, t, command);
    case SendAppend(_, peer) => if step.i == i { FreshSends(srv, t, i, peer); }
    case ServeAppend(rpc, room) => if rpc.dst == i { FreshAppend(srv, t, rpc.append, room); }
    case TakeAppend(rpc, reply) => FreshReply(srv, t, |s.servers|, rpc.dst, rpc.append, reply);
    case Restart(_) =>
  }

  lemma FreshRoles(srv: Server, t: nat)
    requires FreshServer(srv, t)
    ensures FreshServer(srv.(role := Candidate), t) && FreshServer(srv.(role := Follower), t)
  {
  }

  lemma FreshSubmit(srv: Server, t: nat, command: Command)
    requires FreshServer(srv, t) && Contiguous(srv.log)
    ensures FreshServer(StartCommand(srv, command).0, t)
  {
  }

  lemma FreshStart(s: State, i: nat)
    requires i < |s.servers| && EpochsOk(s) && WellFormed(s) && Enabled(s, Restart(i))
    ensures var t := Do(s, Restart(i)); Fresh(t, i, t.servers[i].currentTerm)
  {
  }

  lemma {:induction false} RunFresh(n: nat, states: seq<State>, steps: seq<Step>, i: nat, r: nat, a: nat)
    requires Run(n, states, steps) && Began(steps, i, r, a) && a < |states| && i < n
    ensures i < |states[r].servers| && Fresh(states[a], i, states[r].servers[i].currentTerm)
    decreases a
  {
    hide Inv, Enabled, Do, Fresh;
    RunInv(n, states, steps, r);
    if a > r {
      assert Next(states[a - 1], steps[a - 1], states[a]);
      RunFresh(n, states, steps, i, r, a - 1);
      FreshStep(states[a - 1], steps[a - 1], i, states[r].servers[i].currentTerm);
    } else if r > 0 {
      assert Next(states[r - 1], steps[r - 1], states[r]);
      RunEpochs(n, states, steps, r - 1);
      RunInv(n, states, steps, r - 1);
      FreshStart(states[r - 1], i);
    } else {
      FreshAtFirst(n, i);
    }
  }

  lemma FreshAtFirst(n: nat, i: nat)
    requires i < n
    ensures Fresh(Init(n), i, 0) && Init(n).servers[i].currentTerm == 0
  {
  }

  /** What only an earlier incarnation had applied is of a term before any this one leads. */
  lemma OldTermsWhenAnswered(n: nat, states: seq<State>, steps: seq<Step>, i: nat, r: nat, a: nat, from: nat, b: nat, m: Message)
    requires Run(n, states, steps) && CutAt(states, steps, i, r, a, from, b) && i < n
    requires m in states[a].net && OwnAppend(states[a], i, m) && m.rpc.append.term <= states[a].servers[i].currentTerm
    ensures OldTerms(states[a].servers[i], b)
  {
    hide Run, Inv, CoreOf, Kept;
    var srv := states[a].servers[i];
    RunInv(n, states, steps, a);
    RunFresh(n, states, steps, i, r, a);
    CommitIndexInLog(states[a], i);
    if srv.commitIndex < b {
      TermsBefore(n, states, steps, i, r, a, from);
    }
  }

  lemma TermsBefore(n: nat, states: seq<State>, steps: seq<Step>, i: nat, r: nat, a: nat, from: nat)
    requires Run(n, states, steps) && r <= a < |states| && AppliedBy(states, i, r, from) && i < n
    ensures i < |states[a].servers| && i < |states[r].servers| && from < |states[a].servers[i].log|
    ensures forall k :: 0 <= k <= from ==> states[a].servers[i].log[k].term <= states[r].servers[i].currentTerm
  {
    hide Run, Inv, CoreOf, Kept, LogOk;
    RunInv(n, states, steps, a);
    RunInv(n, states, steps, r);
    var c :| 0 <= c <= r && c < |states| && i < |states[c].servers| && from <= states[c].servers[i].lastApplied;
    RunInv(n, states, steps, c);
    AppliedStaysInLog(n, states, steps, c, a, i, from);
    AppliedStaysInLog(n, states, steps, c, r, i, from);
    var was, now := states[c].servers[i].log, states[a].servers[i].log;
    forall k | 0 <= k <= from
      ensures now[k].term <= states[r].servers[i].currentTerm
    {
      TermsInLog(states[c], i, k);
      assert now[k] == now[..from + 1][k] == was[..from + 1][k] == was[k];
    }
  }

  lemma TermsInLog(s: State, i: nat, k: nat)
    requires Inv(s) && i < |s.servers| && k < |s.servers[i].log|
    ensures s.servers[i].log[k].term <= s.servers[i].currentTerm
  {
    hide CoreInv, NetOk, DeliveredOk, CoreOf;
    Member(s, i);
    LogInOrder(s, i);
    LastTermInLog(CoreOf(s), s.servers[i], i);
    assert Ordered(s.servers[i].log, k, |s.servers[i].log| - 1);
  }

  lemma LastTermInLog(c: Core, srv: Server, i: nat)
    requires Good(c, srv, i)
    ensures srv.log != [] && LastTerm(srv.log) <= srv.currentTerm
  {
    GoodLog(c, srv, i);
  }
}
