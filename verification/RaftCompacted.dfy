/** The cluster with one log cut: in every reachable state, and for every cut the server may have
    made in this or an earlier incarnation, a step does to the cluster what it does with the whole
    log in place, but for three answers that only a compacted log gives. */
module RaftCompacted {
  import opened Commands
  import opened RaftServer
  import opened RaftCore
  import opened RaftCommitted
  import opened RaftReconcile
  import opened RaftServerInv
  import opened RaftReplication
  import opened RaftSystem
  import opened RaftSafety
  import opened RaftTheorems
  import opened RaftCompaction
  import opened RaftCompactionRuns

  // ----- what the messages in the network meet -----

  /** What the handler of an AppendEntries asks of the log, for the whole log and for the cut one. */
  ghost predicate Fits(f: Server, args: AppendArgs, b: nat)
    requires Contiguous(f.log)
  {
    AppendArgsOk(f.log, args) && AgreesUpTo(f.log, b, args.entries) && TermsRising(f.log)
    && (args.prevLogIndex <= b ==> PrevMatches(f.log, args))
    && (PrevMatches(f.log, args) ==> MergeSafe(f, args))
  }

  /** Every AppendEntries of a term that the receiver would not refuse meets it, up to whatever this
      or any earlier incarnation of the receiver has applied. */
  lemma AppendsFit(n: nat, states: seq<State>, steps: seq<Step>, i: nat, r: nat, a: nat, from: nat, b: nat, rpc: Rpc)
    requires Run(n, states, steps) && CutAt(states, steps, i, r, a, from, b)
    requires rpc.AppendRpc? && Request(rpc) in states[a].net && rpc.dst == i
    requires rpc.append.term >= states[a].servers[i].currentTerm
    ensures Contiguous(states[a].servers[i].log) && Fits(states[a].servers[i], rpc.append, b)
  {
    hide Run, CutAt, Inv, Fits, Kept, CoreOf, MayView;
    CutInState(states, steps, i, r, a, from, b);
    CutViews(n, states, steps, i, r, a, from, b);
    FitsInState(states[a], rpc, b);
  }

  lemma CutInState(states: seq<State>, steps: seq<Step>, i: nat, r: nat, a: nat, from: nat, b: nat)
    requires CutAt(states, steps, i, r, a, from, b)
    ensures a < |states| && i < |states[a].servers|
  {
  }

  lemma FitsInState(s: State, rpc: Rpc, b: nat)
    requires Inv(s) && rpc.AppendRpc? && Request(rpc) in s.net && rpc.dst < |s.servers|
    requires rpc.append.term >= s.servers[rpc.dst].currentTerm && Kept(CoreOf(s), s.servers[rpc.dst], b)
    ensures Contiguous(s.servers[rpc.dst].log) && Fits(s.servers[rpc.dst], rpc.append, b)
  {
    hide CoreInv, CoreOf, NetOk, DeliveredOk, Kept, ServerOk, Settled, Segment, AgreesUpTo, AppendArgsOk, PrevMatches,
         MergeSafe, TermsRising, LogOk, Contiguous, Uncompacted, ServersOk;
    var c, v, f, args := CoreOf(s), rpc.dst, s.servers[rpc.dst], rpc.append;
    MessageInNet(s, Request(rpc));
    InGoodOrder(s, v);
    ServeAppendReady(s, rpc);
    SenderHolds(c, f, rpc.src, args, b);
    KeptInLog(c, f, b);
    TermLogsInCore(c);
    SegmentAgrees(c.h, f.log, rpc.src, args, b);
    RisingTerms(f.log, s.h.termLog);
    if PrevMatches(f.log, args) { MergesSafely(s, rpc); }
  }

  lemma TermLogsInCore(c: Core)
    requires CoreInv(c)
    ensures TermLogsOk(c.h)
  {
  }

  lemma RisingTerms(log: seq<Entry>, termLog: map<nat, seq<Entry>>)
    requires LogOk(log, termLog)
    ensures TermsRising(log)
  {
    forall j, k | 0 <= j <= k < |log|
      ensures log[j].term <= log[k].term
    {
      assert Ordered(log, j, k);
    }
  }

  lemma MergesSafely(s: State, rpc: Rpc)
    requires Inv(s) && rpc.AppendRpc? && Request(rpc) in s.net && rpc.dst < |s.servers|
    requires var f := s.servers[rpc.dst];
             rpc.append.term >= f.currentTerm && Contiguous(f.log) && AppendArgsOk(f.log, rpc.append) && PrevMatches(f.log, rpc.append)
    ensures MergeSafe(s.servers[rpc.dst], rpc.append)
  {
    hide CoreInv, CoreOf, NetOk, DeliveredOk, ServersOk, Settled, ServerOk, AppendArgsOk, PrevMatches, Contiguous, Segment;
    var c, v, f, args := CoreOf(s), rpc.dst, s.servers[rpc.dst], rpc.append;
    MessageInNet(s, Request(rpc));
    InGoodOrder(s, v);
    CommitIndexInLog(s, v);
    AppliedKept(s, v, f.commitIndex);
    MergeLeaves(c, f, v, rpc.src, args, f.commitIndex);
    TermLogsInCore(c);
    LastNewIs(c.h, rpc.src, args);
    SentInOrder(c, rpc);
  }

  // ----- one step, with the log of server i cut -----

  /** The state in which the log of server i is cut at b and nothing else is different. */
  function CutState(s: State, i: nat, from: nat, b: nat): State
    requires i < |s.servers| && MayView(s.servers[i], from, b)
  {
    s.(servers := s.servers[i := View(s.servers[i], from, b)])
  }

  /** Equal but for the history and for what the cut server did not hand over again. */
  ghost predicate Same(x: State, y: State) {
    x.servers == y.servers && x.epochs == y.epochs && x.net == y.net
  }

  /** The step is possible with the log cut, sends the same, and leads to the same servers. */
  ghost predicate Unnoticed(s: State, step: Step, i: nat, from: nat, b: nat)
    requires WellFormed(s) && Enabled(s, step) && i < |s.servers| && MayView(s.servers[i], from, b)
  {
    var cut, t, start := CutState(s, i, from, b), Do(s, step), if step == Restart(i) then b else from;
    WellFormed(cut) && Enabled(cut, step)
    && |t.servers| == |s.servers| && MayView(t.servers[i], start, b) && Same(Do(cut, step), CutState(t, i, start, b))
  }

  lemma CutWellFormed(s: State, i: nat, from: nat, b: nat)
    requires WellFormed(s) && i < |s.servers| && MayView(s.servers[i], from, b)
    ensures WellFormed(CutState(s, i, from, b))
  {
    Looks(s.servers[i], from, b);
  }

  function Actor(step: Step): nat {
    match step
    case ServeVote(rpc) => rpc.dst
    case TakeVote(rpc, _) => rpc.src
    case ServeAppend(rpc, _) => rpc.dst
    case TakeAppend(rpc, _) => rpc.src
    case _ => step.i
  }

  lemma OtherActs(s: State, step: Step, i: nat, from: nat, b: nat)
    requires WellFormed(s) && Enabled(s, step) && i < |s.servers| && MayView(s.servers[i], from, b) && Actor(step) != i
    ensures Unnoticed(s, step, i, from, b)
  {
    hide HandleRequestVote, HandleVoteReply, HandleAppendEntries, HandleAppendReply, StartElection, StartCommand,
         PrepareAppend, Boot, AppendArgsOk, Contiguous, Deliveries, MayView, View;
    CutWellFormed(s, i, from, b);
    var cut, t := CutState(s, i, from, b), Do(s, step);
    assert Do(cut, step).servers == t.servers[i := cut.servers[i]];
  }

  lemma RolesUnnoticed(s: State, step: Step, i: nat, from: nat, b: nat)
    requires WellFormed(s) && Enabled(s, step) && i < |s.servers| && MayView(s.servers[i], from, b)
    requires step == EnterCandidate(i) || step == StepDown(i)
    ensures Unnoticed(s, step, i, from, b)
  {
    hide Contiguous, Deliveries, Messages, Cut;
    CutWellFormed(s, i, from, b);
  }

  lemma ElectionUnnoticed(s: State, i: nat, from: nat, b: nat)
    requires WellFormed(s) && Enabled(s, BeginElection(i)) && i < |s.servers| && MayView(s.servers[i], from, b)
    ensures Unnoticed(s, BeginElection(i), i, from, b)
  {
    hide Contiguous, Deliveries, MayView, View, StartElection;
    CutWellFormed(s, i, from, b);
    ViewElection(s.servers[i], from, b, i);
    Looks(s.servers[i], from, b);
  }

  lemma VoteUnnoticed(s: State, rpc: Rpc, from: nat, b: nat)
    requires WellFormed(s) && Enabled(s, ServeVote(rpc)) && MayView(s.servers[rpc.dst], from, b)
    ensures Unnoticed(s, ServeVote(rpc), rpc.dst, from, b)
  {
    hide Contiguous, Deliveries, MayView, View, HandleRequestVote;
    CutWellFormed(s, rpc.dst, from, b);
    ViewRequestVote(s.servers[rpc.dst], from, b, rpc.vote);
  }

  lemma TallyUnnoticed(s: State, rpc: Rpc, reply: VoteReply, from: nat, b: nat)
    requires WellFormed(s) && Enabled(s, TakeVote(rpc, reply)) && MayView(s.servers[rpc.src], from, b)
    ensures Unnoticed(s, TakeVote(rpc, reply), rpc.src, from, b)
  {
    hide Contiguous, Deliveries, MayView, View, HandleVoteReply;
    CutWellFormed(s, rpc.src, from, b);
    ViewVoteReply(s.servers[rpc.src], from, b, |s.servers|, rpc.dst, rpc.vote, reply);
  }

  lemma SubmitUnnoticed(s: State, i: nat, command: Command, from: nat, b: nat)
    requires WellFormed(s) && Enabled(s, Submit(i, command)) && MayView(s.servers[i], from, b)
    ensures Unnoticed(s, Submit(i, command), i, from, b)
  {
    hide Contiguous, Deliveries, MayView, View, StartCommand;
    CutWellFormed(s, i, from, b);
    ViewStart(s.servers[i], from, b, command);
  }

  lemma RestartUnnoticed(s: State, i: nat, from: nat, b: nat)
    requires WellFormed(s) && Enabled(s, Restart(i)) && MayView(s.servers[i], from, b) && Synced(s.servers[i])
    ensures Unnoticed(s, Restart(i), i, from, b)
  {
    hide Contiguous, Deliveries, View, Messages, Uncompacted;
    CutWellFormed(s, i, from, b);
    Looks(s.servers[i], from, b);
    BootsCut(s.servers[i], from, b);
    Looks(Boot(s.servers[i].disk), b, b);
  }

  lemma BootsCut(f: Server, from: nat, b: nat)
    requires MayView(f, from, b) && Synced(f)
    ensures MayView(Boot(f.disk), b, b) && Boot(View(f, from, b).disk) == View(Boot(f.disk), b, b)
  {
    if f.disk.Some? {
      ViewBoot(f, from, b);
    } else {
      assert f.log[0..] == f.log;
    }
  }

  // ----- replication, where a compacted server can be noticed -----

  /** What this leader is to send begins after an entry it still has, or with the first entry. */
  ghost predicate StillHas(f: Server, peer: nat, b: nat) {
    var prev := IndexOf(f.nextIndex, peer) - 1; prev >= b || (prev == 0 && b <= 1)
  }

  lemma SendUnnoticed(s: State, i: nat, peer: nat, from: nat, b: nat)
    requires WellFormed(s) && Enabled(s, SendAppend(i, peer)) && MayView(s.servers[i], from, b)
    requires 1 <= IndexOf(s.servers[i].nextIndex, peer) <= |s.servers[i].log| && StillHas(s.servers[i], peer, b)
    ensures Unnoticed(s, SendAppend(i, peer), i, from, b)
  {
    hide Contiguous, Deliveries, MayView, View, PrepareAppend;
    CutWellFormed(s, i, from, b);
    IsLeader(s.servers[i], i, peer);
    ViewPrepare(s.servers[i], from, b, i, peer);
  }

  lemma IsLeader(f: Server, i: nat, peer: nat)
    requires Contiguous(f.log) && PrepareAppend(f, i, peer).Send?
    ensures f.role == Leader
  {
  }

  /** The entry before those sent is still in the log, or they are the first, and it matches; or the
      request is refused for its term. */
  ghost predicate Taken(f: Server, args: AppendArgs, b: nat)
    requires Contiguous(f.log)
  {
    args.term >= f.currentTerm ==> (args.prevLogIndex == 0 || args.prevLogIndex >= b) && PrevMatches(f.log, args)
  }

  lemma FitsCut(f: Server, from: nat, b: nat, args: AppendArgs)
    requires MayView(f, from, b) && Contiguous(f.log) && (args.term >= f.currentTerm ==> Fits(f, args, b))
    ensures Contiguous(View(f, from, b).log) && Servable(View(f, from, b), args)
  {
    hide MergeSafe, PrevMatches, TermsRising;
    Looks(f, from, b);
    if args.term >= f.currentTerm { AgreesIsOk(f.log, b, args); }
  }

  lemma AppendUnnoticed(s: State, rpc: Rpc, room: bool, from: nat, b: nat)
    requires WellFormed(s) && Enabled(s, ServeAppend(rpc, room)) && MayView(s.servers[rpc.dst], from, b)
    requires var f := s.servers[rpc.dst];
             Taken(f, rpc.append, b) && (rpc.append.term >= f.currentTerm ==> Fits(f, rpc.append, b))
    ensures Unnoticed(s, ServeAppend(rpc, room), rpc.dst, from, b)
  {
    hide Contiguous, Deliveries, MayView, View, HandleAppendEntries, AppendArgsOk, AgreesUpTo, PrevMatches, MergeSafe, TermsRising;
    var f := s.servers[rpc.dst];
    CutWellFormed(s, rpc.dst, from, b);
    FitsCut(f, from, b, rpc.append);
    Looks(f, from, b);
    if rpc.append.term < f.currentTerm {
      ViewIgnores(f, from, b, rpc.append, room);
    } else {
      ViewAppendEntries(f, from, b, rpc.append, room);
    }
  }

  /** What the handler of a reply asks of the leader. */
  ghost predicate MayTake(f: Server, args: AppendArgs, reply: AppendReply, b: nat) {
    TermsRising(f.log)
    && (args.term >= f.currentTerm && f.role != Follower && reply.term <= f.currentTerm ==>
          f.currentTerm > 0 && OldTerms(f, b) && args.prevLogIndex + |args.entries| < |f.log|)
    && (args.term >= reply.term && !reply.success ==> reply.conflictTerm != 0)
  }

  /** A rejection does not lead back to before the cut. */
  ghost predicate StaysBeyond(f: Server, args: AppendArgs, reply: AppendReply, b: nat)
    requires Contiguous(f.log)
  {
    BacksUp(f, args, reply) && reply.conflictTerm != -1 ==> Backup(f.log, reply) > b
  }

  lemma ReplyUnnoticed(s: State, rpc: Rpc, reply: AppendReply, from: nat, b: nat)
    requires WellFormed(s) && Enabled(s, TakeAppend(rpc, reply)) && MayView(s.servers[rpc.src], from, b)
    requires MayTake(s.servers[rpc.src], rpc.append, reply, b) && StaysBeyond(s.servers[rpc.src], rpc.append, reply, b)
    ensures Unnoticed(s, TakeAppend(rpc, reply), rpc.src, from, b)
  {
    hide Contiguous, Deliveries, MayView, View, HandleAppendReply, TermsRising, OldTerms, Backup;
    var f := s.servers[rpc.src];
    CutWellFormed(s, rpc.src, from, b);
    ViewAppendReply(f, from, b, |s.servers|, rpc.dst, rpc.append, reply);
    var r := HandleAppendReply(f, |s.servers|, rpc.dst, rpc.append, reply);
    Looks(r, from, b);
    assert View(r, from, b).(nextIndex := r.nextIndex) == View(r, from, b);
  }

  // ----- in every run -----

  lemma NextInRange(s: State, i: nat, peer: nat)
    requires Inv(s) && i < |s.servers| && peer < |s.servers| && s.servers[i].role == Leader
    ensures 1 <= IndexOf(s.servers[i].nextIndex, peer) <= |s.servers[i].log|
  {
    hide CoreInv, NetOk, DeliveredOk;
    assert ServerOk(CoreOf(s), s.servers[i], i);
    assert peer in s.servers[i].nextIndex;
  }

  lemma ReplyMayBeTaken(n: nat, states: seq<State>, steps: seq<Step>, i: nat, r: nat, a: nat, from: nat, b: nat,
                        rpc: Rpc, reply: AppendReply)
    requires Run(n, states, steps) && CutAt(states, steps, i, r, a, from, b) && i < n && rpc.AppendRpc? && rpc.src == i
    requires AppendResponse(rpc, reply) in states[a].net && i < |states[a].epochs| && states[a].epochs[i] == rpc.epoch
    ensures MayTake(states[a].servers[i], rpc.append, reply, b)
  {
    hide Run, Inv, CoreOf, LogOk, OldTerms, TermsRising, Segment, ElectionLeaders, TermLogsOk, At, Good;
    var s, f := states[a], states[a].servers[i];
    RunInv(n, states, steps, a);
    InGoodOrder(s, i);
    RisingTerms(f.log, s.h.termLog);
    MessageInNet(s, AppendResponse(rpc, reply));
    if rpc.append.term >= f.currentTerm {
      AnswersLeader(CoreOf(s), f, i, rpc.append);
      OldTermsWhenAnswered(n, states, steps, i, r, a, from, b, AppendResponse(rpc, reply));
    }
  }

  lemma AnswersLeader(c: Core, f: Server, i: nat, args: AppendArgs)
    requires Good(c, f, i) && Segment(c.h, i, args) && args.term >= f.currentTerm
    ensures args.term == f.currentTerm > 0 && args.prevLogIndex + |args.entries| < |f.log|
  {
    SentInOwnTerm(c, f, i, args);
  }

  /** The step is not one in which server i lacks an entry that it has compacted away. */
  ghost predicate NothingMissed(f: Server, step: Step, i: nat, b: nat)
    requires Contiguous(f.log)
  {
    match step
    case SendAppend(_, peer) => step.i == i ==> StillHas(f, peer, b)
    case ServeAppend(rpc, room) => rpc.AppendRpc? && rpc.dst == i ==> Taken(f, rpc.append, b)
    case TakeAppend(rpc, reply) => rpc.AppendRpc? && rpc.src == i ==> StaysBeyond(f, rpc.append, reply, b)
    case _ => true
  }

  /** In every run and for every cut a server may have made, in this or an earlier incarnation, a
      step that misses no entry does to the cut server what it does to the whole one. */
  lemma CompactionUnnoticed(n: nat, states: seq<State>, steps: seq<Step>, i: nat, r: nat, a: nat, from: nat, b: nat)
    requires Run(n, states, steps) && CutAt(states, steps, i, r, a, from, b) && a < |steps| && i < n
    ensures i < |states[a].servers| && WellFormed(states[a]) && Enabled(states[a], steps[a])
    ensures MayView(states[a].servers[i], from, b)
    ensures NothingMissed(states[a].servers[i], steps[a], i, b) ==> Unnoticed(states[a], steps[a], i, from, b)
  {
    hide Inv, CutAt, CoreOf, Kept, MayView, Unnoticed, HandleRequestVote, HandleVoteReply, HandleAppendEntries, HandleAppendReply,
         StartElection, StartCommand, PrepareAppend, Contiguous, StillHas, Taken, StaysBeyond, Fits, MayTake, AppendArgsOk, Do;
    var s, step := states[a], steps[a];
    CutInState(states, steps, i, r, a, from, b);
    CutViews(n, states, steps, i, r, a, from, b);
    assert Next(s, step, states[a + 1]);
    if Actor(step) != i {
      OtherActs(s, step, i, from, b);
    } else if NothingMissed(s.servers[i], step, i, b) {
      match step
      case EnterCandidate(_) => RolesUnnoticed(s, step, i, from, b);
      case StepDown(_) => RolesUnnoticed(s, step, i, from, b);
      case BeginElection(_) => ElectionUnnoticed(s, i, from, b);
      case ServeVote(rpc) => VoteUnnoticed(s, rpc, from, b);
      case TakeVote(rpc, reply) => TallyUnnoticed(s, rpc, reply, from, b);
      case Submit(_, command) => SubmitUnnoticed(s, i, command, from, b);
      case SendAppend(_, peer) =>
        IsLeader(s.servers[i], i, peer);
        NextInRange(s, i, peer);
        SendUnnoticed(s, i, peer, from, b);
      case ServeAppend(rpc, room) =>
        if rpc.append.term >= s.servers[i].currentTerm { AppendsFit(n, states, steps, i, r, a, from, b, rpc); }
        AppendUnnoticed(s, rpc, room, from, b);
      case TakeAppend(rpc, reply) =>
        ReplyMayBeTaken(n, states, steps, i, r, a, from, b, rpc, reply);
        ReplyUnnoticed(s, rpc, reply, from, b);
      case Restart(_) =>
        InGoodOrder(s, i);
        RestartUnnoticed(s, i, from, b);
    }
  }

  /** Whatever the cut, every AppendEntries in the network can be served: truncation never empties the
      cut log, and no slice of it is out of range. */
  lemma CompactedNeverPanics(n: nat, states: seq<State>, steps: seq<Step>, i: nat, r: nat, a: nat, from: nat, b: nat, rpc: Rpc)
    requires Run(n, states, steps) && CutAt(states, steps, i, r, a, from, b)
    requires rpc.AppendRpc? && Request(rpc) in states[a].net && rpc.dst == i
    ensures MayView(states[a].servers[i], from, b)
    ensures var g := View(states[a].servers[i], from, b); Contiguous(g.log) && Servable(g, rpc.append)
  {
    hide Run, Inv, CoreOf, Kept, CutAt, MayView, View, Contiguous, Fits, AppendArgsOk;
    CutInState(states, steps, i, r, a, from, b);
    CutViews(n, states, steps, i, r, a, from, b);
    var f := states[a].servers[i];
    if rpc.append.term >= f.currentTerm { AppendsFit(n, states, steps, i, r, a, from, b, rpc); }
    Looks(f, from, b);
    FitsCut(f, from, b, rpc.append);
  }

  /** Cutting at a later applied index makes the cut server the whole one cut there. */
  lemma CompactionCuts(n: nat, states: seq<State>, steps: seq<Step>, i: nat, r: nat, a: nat, from: nat, b: nat, index: nat)
    requires Run(n, states, steps) && CutAt(states, steps, i, r, a, from, b) && i < n
    requires 0 < index && b <= index <= states[a].servers[i].lastApplied
    ensures CutAt(states, steps, i, r, a, from, index)
    ensures var f := states[a].servers[i];
            MayView(f, from, b) && MayView(f, from, index) && Contiguous(f.log[b..])
            && f.log[b..][0].index <= index <= LastIndex(f.log[b..])
            && Compact(View(f, from, b), index) == View(f, from, index)
  {
    hide Run, Inv, CoreOf, Kept, View, Contiguous, LogOk, Uncompacted, Good, Cut, AppliedBy, Began;
    var f := states[a].servers[i];
    CutViews(n, states, steps, i, r, a, from, b);
    CutsGoOn(n, states, steps, i, r, a, from, b, index);
    CommitIndexInLog(states[a], i);
    InGoodOrder(states[a], i);
    ViewCompact(f, from, b, index);
    assert Persist(f) == f;
  }

  lemma {:induction false} MessagesExact(full: seq<Entry>, lo: nat, hi: nat)
    requires hi <= |full|
    ensures |Messages(full, lo, hi)| == if lo < hi then hi - lo else 0
    ensures forall k :: 0 <= k < |Messages(full, lo, hi)| ==> Messages(full, lo, hi)[k] == ApplyMsg(lo + k, full[lo + k].command)
    decreases hi
  {
    if lo < hi { MessagesExact(full, lo, hi - 1); }
  }

  /** An incarnation started from a log that begins at `from` has handed over the entries at
      max(1, from), ..., commitIndex of the whole log, in order, with no gap and no repeat. */
  lemma HandsOverFromCut(n: nat, states: seq<State>, steps: seq<Step>, i: nat, r: nat, a: nat, from: nat, b: nat)
    requires Run(n, states, steps) && CutAt(states, steps, i, r, a, from, b) && i < n
    ensures var f := states[a].servers[i]; var first := Later(from, 1);
            MayView(f, from, b)
            && (var sent := View(f, from, b).applyCh;
                |sent| == (if first <= f.commitIndex then f.commitIndex + 1 - first else 0)
                && forall k :: 0 <= k < |sent| ==> sent[k] == ApplyMsg(first + k, f.log[first + k].command))
  {
    hide Run, Inv, CoreOf, Kept, CutAt, Cut;
    CutInState(states, steps, i, r, a, from, b);
    var f := states[a].servers[i];
    CutViews(n, states, steps, i, r, a, from, b);
    CommitIndexInLog(states[a], i);
    MessagesExact(f.log, Later(from, 1), f.lastApplied + 1);
  }

  // ----- where a missing entry is noticed -----

  /** Asked about an entry it has compacted away, where the whole log would match, the server refuses
      and suggests its log's end; asked about a later one that does not match, it hints at the
      conflicting term from the cut on. */
  lemma CompactedRefuses(n: nat, states: seq<State>, steps: seq<Step>, i: nat, r: nat, a: nat, from: nat, b: nat,
                         rpc: Rpc, room: bool)
    requires Run(n, states, steps) && CutAt(states, steps, i, r, a, from, b) && i < n
    requires rpc.AppendRpc? && Request(rpc) in states[a].net && rpc.dst == i
    requires Contiguous(states[a].servers[i].log) && !Taken(states[a].servers[i], rpc.append, b)
    ensures var f, args := states[a].servers[i], rpc.append;
            MayView(f, from, b) && MayView(Listening(f, args, room), from, b)
            && Contiguous(View(f, from, b).log) && Servable(View(f, from, b), args)
            && (var (cut, reply) := HandleAppendEntries(View(f, from, b), args, room);
                var full := Rejection(args.term, f.log, args.prevLogIndex);
                cut == View(Listening(f, args, room), from, b)
                && if args.prevLogIndex < b then
                     PrevMatches(f.log, args) && reply == AppendReply(args.term, false, |f.log|, -1)
                   else !PrevMatches(f.log, args)
                        && reply == AppendReply(args.term, false, Later(full.conflictIndex, b), full.conflictTerm))
  {
    hide Run, Inv, CoreOf, Kept, CutAt, MayView, View, Contiguous, AppendArgsOk, AgreesUpTo, PrevMatches, MergeSafe,
         TermsRising, HandleAppendEntries, Rejection, Listening;
    CutInState(states, steps, i, r, a, from, b);
    var f, args := states[a].servers[i], rpc.append;
    CutViews(n, states, steps, i, r, a, from, b);
    AppendsFit(n, states, steps, i, r, a, from, b, rpc);
    FitsCut(f, from, b, args);
    ViewRejects(f, from, b, args, room);
  }

  /** A rejection that leads back to before the cut leads a compacted leader to the follower's hint. */
  lemma CompactedBacksUp(n: nat, states: seq<State>, steps: seq<Step>, i: nat, r: nat, a: nat, from: nat, b: nat,
                         rpc: Rpc, reply: AppendReply)
    requires Run(n, states, steps) && CutAt(states, steps, i, r, a, from, b) && i < n && rpc.AppendRpc? && rpc.src == i
    requires AppendResponse(rpc, reply) in states[a].net && i < |states[a].epochs| && states[a].epochs[i] == rpc.epoch
    requires Contiguous(states[a].servers[i].log) && !StaysBeyond(states[a].servers[i], rpc.append, reply, b)
    ensures var f := states[a].servers[i];
            MayView(f, from, b) && Contiguous(View(f, from, b).log)
            && (var whole := HandleAppendReply(f, n, rpc.dst, rpc.append, reply);
                MayView(whole, from, b)
                && HandleAppendReply(View(f, from, b), n, rpc.dst, rpc.append, reply)
                   == View(whole, from, b).(nextIndex := f.nextIndex[rpc.dst := reply.conflictIndex]))
  {
    hide Run, Inv, CoreOf, Kept, CutAt, MayView, View, Contiguous, HandleAppendReply, TermsRising, OldTerms, Backup;
    CutInState(states, steps, i, r, a, from, b);
    var f := states[a].servers[i];
    CutViews(n, states, steps, i, r, a, from, b);
    ReplyMayBeTaken(n, states, steps, i, r, a, from, b, rpc, reply);
    Looks(f, from, b);
    ViewAppendReply(f, from, b, n, rpc.dst, rpc.append, reply);
    BackedUpTo(f, n, rpc.dst, rpc.append, reply);
  }

  lemma BackedUpTo(f: Server, n: nat, peer: nat, args: AppendArgs, reply: AppendReply)
    requires Contiguous(f.log) && BacksUp(f, args, reply)
    ensures HandleAppendReply(f, n, peer, args, reply).nextIndex[peer := reply.conflictIndex]
            == f.nextIndex[peer := reply.conflictIndex]
  {
  }

  /** A leader asked for entries after one it has compacted away falls back on its snapshot. */
  lemma CompactedNeedsSnapshot(n: nat, states: seq<State>, steps: seq<Step>, i: nat, r: nat, a: nat, from: nat, b: nat, peer: nat)
    requires Run(n, states, steps) && CutAt(states, steps, i, r, a, from, b) && i < n && peer < n
    requires states[a].servers[i].role == Leader
    ensures var f := states[a].servers[i];
            MayView(f, from, b) && Contiguous(View(f, from, b).log)
            && (PrepareAppend(View(f, from, b), i, peer) == NeedsSnapshot <==> !StillHas(f, peer, b))
  {
    hide Run, Inv, CoreOf, Kept, CutAt, MayView, View, Contiguous, PrepareAppend;
    CutInState(states, steps, i, r, a, from, b);
    var f := states[a].servers[i];
    CutViews(n, states, steps, i, r, a, from, b);
    RunInv(n, states, steps, a);
    NextInRange(states[a], i, peer);
    NeverNeedsSnapshot(n, states, steps, a, i, peer);
    Looks(f, from, b);
    ViewPrepare(f, from, b, i, peer);
  }
}
