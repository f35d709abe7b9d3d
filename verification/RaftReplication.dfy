/** The replication half of the handlers: what a leader may send, what a follower's reply
    may claim, and why counting the claims is a commit rule. */
module RaftReplication {
  import opened RaftServer
  import opened RaftCore
  import opened RaftCoreSteps
  import opened RaftCommitted
  import opened RaftReconcile
  import opened RaftServerInv
  import opened RaftHandlers

  // ----- what an AppendEntries says -----

  /** The entries are a segment of the log of the term's leader, and LeaderCommit lies within
      what the receiver will hold. */
  ghost predicate Segment(h: History, src: nat, args: AppendArgs) {
    args.term in h.termLog && args.term in h.elections && h.elections[args.term].leader == src
    && args.leaderId == src
    && var log := h.termLog[args.term]; var last := args.prevLogIndex + |args.entries|;
       last < |log| && args.prevLogTerm == log[args.prevLogIndex].term
       && args.entries == log[args.prevLogIndex + 1..last + 1]
       && args.leaderCommit <= last
  }

  ghost predicate AppendArgsSent(c: Core, src: nat, args: AppendArgs) {
    Segment(c.h, src, args) && Settled(c, c.h.termLog[args.term][..args.leaderCommit + 1], args.term)
  }

  lemma AppendArgsGrow(c: Core, d: Core, src: nat, args: AppendArgs)
    requires HistGrows(c, d) && AppendArgsSent(c, src, args)
    ensures AppendArgsSent(d, src, args)
  {
    var a, b := c.h.termLog[args.term], d.h.termLog[args.term];
    var last := args.prevLogIndex + |args.entries|;
    assert a <= b;
    assert a[args.prevLogIndex + 1..last + 1] == b[args.prevLogIndex + 1..last + 1];
    assert a[..args.leaderCommit + 1] == b[..args.leaderCommit + 1];
    SettledGrows(c, d, a[..args.leaderCommit + 1], args.term, args.term);
  }

  /** A leader never needs a snapshot while its log is uncompacted, and what it sends is in order. */
  lemma PreparedIsSent(c: Core, srv: Server, i: nat, peer: nat)
    requires NodesOk(c) && ElectionLeaders(c) && ServerOk(c, srv, i) && At(c, srv, i)
    requires srv.role == Leader && peer < |c.nodes|
    ensures Contiguous(srv.log)
    ensures var p := PrepareAppend(srv, i, peer); p.Send? && AppendArgsSent(c, i, p.args)
  {
    GoodLog(c, srv, i);
    assert peer in srv.nextIndex;
    assert c.h.termLog[srv.currentTerm] == srv.log;
    PreparedSegment(srv, i, peer);
  }

  lemma PreparedSegment(srv: Server, i: nat, peer: nat)
    requires Uncompacted(srv.log) && Contiguous(srv.log) && srv.log[0] == SENTINEL && srv.role == Leader
    requires peer in srv.nextIndex && 1 <= srv.nextIndex[peer] <= |srv.log| && srv.commitIndex < |srv.log|
    ensures var p := PrepareAppend(srv, i, peer);
            p.Send? && p.args.term == srv.currentTerm && p.args.leaderId == i
            && p.args.leaderCommit == srv.commitIndex <= p.args.prevLogIndex + |p.args.entries| < |srv.log|
            && p.args.prevLogTerm == srv.log[p.args.prevLogIndex].term
            && p.args.entries == srv.log[p.args.prevLogIndex + 1..p.args.prevLogIndex + |p.args.entries| + 1]
  {
  }

  // ----- the follower's side -----

  /** A leader's message never makes a follower truncate its log away. */
  lemma SegmentFits(c: Core, srv: Server, v: nat, src: nat, args: AppendArgs)
    requires NodesOk(c) && TermLogsOk(c.h) && At(c, srv, v) && Segment(c.h, src, args)
    ensures Contiguous(srv.log) && AppendArgsOk(srv.log, args)
  {
    GoodLog(c, srv, v);
    assert LogOk(c.h.termLog[args.term], c.h.termLog);
  }

  lemma {:induction false} FirstIndexBound(log: seq<Entry>, term: nat, k: nat)
    requires k < |log| && log[k].term == term && forall j :: 0 <= j < |log| ==> log[j].index == log[0].index + j
    ensures exists j :: 0 <= j <= k && FirstIndexOfTerm(log, term) == log[0].index + j && log[j].term == term
    decreases |log|
  {
    if log[0].term != term {
      FirstIndexBound(log[1..], term, k - 1);
      var j :| 0 <= j <= k - 1 && FirstIndexOfTerm(log[1..], term) == log[1..][0].index + j && log[1..][j].term == term;
      assert FirstIndexOfTerm(log, term) == log[0].index + (j + 1) && log[j + 1].term == term;
    }
  }

  /** A rejection always points at or before the entry it rejects, and names a real term or none. */
  ghost predicate RejectionOk(prevLogIndex: nat, reply: AppendReply) {
    1 <= reply.conflictIndex <= prevLogIndex && (reply.conflictTerm == -1 || reply.conflictTerm > 0)
  }

  lemma RejectionPointsBack(log: seq<Entry>, args: AppendArgs, term: nat, termLog: map<nat, seq<Entry>>)
    requires LogOk(log, termLog) && Contiguous(log) && !PrevMatches(log, args)
    ensures RejectionOk(args.prevLogIndex, Rejection(term, log, args.prevLogIndex))
  {
    if args.prevLogIndex < |log| {
      assert Backed(log, termLog, args.prevLogIndex);
      FirstIndexBound(log, log[args.prevLogIndex].term, args.prevLogIndex);
    }
  }

  lemma SegmentFollows(log: seq<Entry>, leader: seq<Entry>, args: AppendArgs, termLog: map<nat, seq<Entry>>)
    requires LogOk(log, termLog) && LogOk(leader, termLog) && Contiguous(log) && PrevMatches(log, args)
    requires var last := args.prevLogIndex + |args.entries|;
             last < |leader| && args.prevLogTerm == leader[args.prevLogIndex].term
             && args.entries == leader[args.prevLogIndex + 1..last + 1]
    ensures Uncompacted(log) && Consecutive(args.entries, args.prevLogIndex + 1)
    ensures args.prevLogIndex < |log| && log[args.prevLogIndex].term == leader[args.prevLogIndex].term
  {
  }

  /** Accepting a leader's message is the core's Accept. */
  lemma AcceptedLog(c: Core, srv: Server, v: nat, src: nat, args: AppendArgs)
    requires NodesOk(c) && TermLogsOk(c.h) && At(c, srv, v) && Segment(c.h, src, args)
    requires args.term == srv.currentTerm && Contiguous(srv.log) && PrevMatches(srv.log, args)
    requires AppendArgsOk(srv.log, args)
    ensures var d := DeleteConflicts(srv.log, args.entries);
            d != [] && MayAccept(c, v, args.prevLogIndex + |args.entries|)
            && AppendNew(d, args.entries) == Accept(c, v, args.prevLogIndex + |args.entries|).nodes[v].log
  {
    GoodLog(c, srv, v);
    SegmentFollows(srv.log, c.h.termLog[args.term], args, c.h.termLog);
    LoopsMerge(srv.log, c.h.termLog[args.term], args.entries, args.prevLogIndex,
               args.prevLogIndex + |args.entries|, c.h.termLog);
  }

  lemma AcceptGrows(c: Core, v: nat, m: nat)
    requires MayAccept(c, v, m)
    ensures HistGrows(c, Accept(c, v, m))
  {
  }

  /** The follower stays in order after writing the merged log. */
  lemma AcceptorOk(c: Core, srv: Server, r: Server, v: nat, m: nat)
    requires ServerOk(c, srv, v) && At(c, srv, v) && MayAccept(c, v, m)
    requires TermLogsOk(c.h) && ElectionLogs(c.h) && LeadersHold(c) && ElectionLeaders(c) && Uncompacted(srv.log)
    requires r == Persist(srv.(log := r.log)) && r.log == Accept(c, v, m).nodes[v].log
    ensures var d := Accept(c, v, m); ServerOk(d, r, v) && At(d, r, v)
  {
    var d := Accept(c, v, m);
    AcceptGrows(c, v, m);
    AcceptKeepsSettled(c, v, m, srv.commitIndex);
    SettledGrows(c, d, srv.log[..srv.commitIndex + 1], srv.currentTerm, srv.currentTerm);
    AppliedStays(srv, r);
    TalliesGrow(c, d, srv, v);
    SameTallies(d, srv, r, v);
    if Leads(c, v) {
      assert r.log == srv.log;
      ProgressGrows(c, d, srv, v);
    }
  }

  lemma AppliedStays(srv: Server, r: Server)
    requires AppliedInOrder(srv) && r.applyCh == srv.applyCh && r.lastApplied == srv.lastApplied
    requires srv.lastApplied < |r.log| && r.log[..srv.lastApplied + 1] == srv.log[..srv.lastApplied + 1]
    ensures AppliedInOrder(r)
  {
    forall k | 0 <= k < |r.applyCh|
      ensures r.applyCh[k] == ApplyMsg(k + 1, r.log[k + 1].command)
    {
      assert r.log[k + 1] == r.log[..srv.lastApplied + 1][k + 1] == srv.log[k + 1];
    }
  }

  /** Committing what the leader says is committed. */
  lemma LearnCommit(c: Core, srv: Server, v: nat, src: nat, args: AppendArgs)
    requires NodesOk(c) && TermLogsOk(c.h) && ServerOk(c, srv, v) && At(c, srv, v) && AppendArgsSent(c, src, args)
    requires args.term == srv.currentTerm && Contiguous(srv.log)
    requires var last := args.prevLogIndex + |args.entries|;
             last < |srv.log| && srv.log[..last + 1] == c.h.termLog[args.term][..last + 1]
    ensures var r := AdvanceCommit(srv, args);
            ServerOk(c, r, v) && At(c, r, v) && r.commitIndex >= srv.commitIndex
  {
    var last := args.prevLogIndex + |args.entries|;
    if args.leaderCommit > srv.commitIndex {
      LastNewIs(c.h, src, args);
      var leader := c.h.termLog[args.term];
      assert srv.log[..args.leaderCommit + 1] == srv.log[..last + 1][..args.leaderCommit + 1];
      assert leader[..args.leaderCommit + 1] == leader[..last + 1][..args.leaderCommit + 1];
      AdvanceKeeps(c, srv, v, args.leaderCommit);
    }
  }

  /** The follower's min never cuts LeaderCommit short. */
  lemma LastNewIs(h: History, src: nat, args: AppendArgs)
    requires TermLogsOk(h) && Segment(h, src, args)
    ensures LastNewIndex(args) == args.prevLogIndex + |args.entries|
    ensures Min(args.leaderCommit, LastNewIndex(args)) == args.leaderCommit
  {
    assert LogOk(h.termLog[args.term], h.termLog);
  }

  lemma AcceptedPrefix(c: Core, v: nat, m: nat)
    requires NodesOk(c) && TermLogsOk(c.h) && MayAccept(c, v, m)
    ensures var d := Accept(c, v, m); var leader := d.h.termLog[c.nodes[v].term];
            m < |d.nodes[v].log| && m < |leader| && d.nodes[v].log[..m + 1] == leader[..m + 1]
  {
    assert NodeOk(c.nodes[v], v, c.h);
    MergedAgrees(c.nodes[v].log, c.h.termLog[c.nodes[v].term], m, c.h.termLog);
  }

  function WithMerged(srv: Server, args: AppendArgs): Server
    requires Contiguous(srv.log) && AppendArgsOk(srv.log, args) && PrevMatches(srv.log, args)
    ensures Contiguous(WithMerged(srv, args).log)
  {
    AppendKeepsContiguous(srv.log, args);
    Persist(srv.(log := AppendNew(DeleteConflicts(srv.log, args.entries), args.entries)))
  }

  /** Writing the merged log. */
  lemma MergeKeeps(c: Core, srv: Server, v: nat, src: nat, args: AppendArgs)
    requires Good(c, srv, v) && Segment(c.h, src, args) && args.term == srv.currentTerm
    requires Contiguous(srv.log) && AppendArgsOk(srv.log, args) && PrevMatches(srv.log, args)
    ensures var m := args.prevLogIndex + |args.entries|; var r := WithMerged(srv, args);
            MayAccept(c, v, m)
            && var d := Accept(c, v, m); Good(d, r, v) && HistGrows(c, d) && Acked(d.h, v, args.term, m)
  {
    hide TermLogsOk, ElectionLogs, LeadersHold, ElectionLeaders, NodesOk, ServerOk, BallotsOk, CampaignsOk, AcksOk,
         AcksHeld, BallotsHeld, ElectionVotes, LeaderAcks, Contiguous, AppendArgsOk, PrevMatches, AppendNew, DeleteConflicts,
         Segment, LogOk, Uncompacted, HistGrows;
    var m := args.prevLogIndex + |args.entries|;
    AcceptedLog(c, srv, v, src, args);
    AcceptKeeps(c, v, m);
    AcceptGrows(c, v, m);
    GoodLog(c, srv, v);
    AcceptorOk(c, srv, WithMerged(srv, args), v, m);
  }

  /** ... and then committing as far as the leader says. */
  lemma CommitAfterMerge(c: Core, d: Core, r: Server, v: nat, src: nat, args: AppendArgs)
    requires NodesOk(d) && TermLogsOk(d.h) && ServerOk(d, r, v) && At(d, r, v) && HistGrows(c, d)
    requires AppendArgsSent(c, src, args) && args.term == r.currentTerm && Contiguous(r.log)
    requires var m := args.prevLogIndex + |args.entries|; var leader := d.h.termLog[args.term];
             m < |r.log| && m < |leader| && r.log[..m + 1] == leader[..m + 1]
    ensures var s := AdvanceCommit(r, args);
            ServerOk(d, s, v) && At(d, s, v) && s.commitIndex >= r.commitIndex
  {
    AppendArgsGrow(c, d, src, args);
    LearnCommit(d, r, v, src, args);
  }

  /** The accepting branch of AppendEntries, from the point where the terms agree. */
  lemma AcceptBranchKeeps(c: Core, srv: Server, v: nat, src: nat, args: AppendArgs)
    requires Good(c, srv, v) && AppendArgsSent(c, src, args) && args.term == srv.currentTerm
    requires Contiguous(srv.log) && AppendArgsOk(srv.log, args) && PrevMatches(srv.log, args)
    ensures var m := args.prevLogIndex + |args.entries|; var r := AdvanceCommit(WithMerged(srv, args), args);
            MayAccept(c, v, m)
            && var d := Accept(c, v, m);
               Good(d, r, v) && HistGrows(c, d) && Acked(d.h, v, args.term, m) && r.commitIndex >= srv.commitIndex
  {
    hide TermLogsOk, ElectionLogs, LeadersHold, ElectionLeaders, NodesOk, ServerOk, BallotsOk, CampaignsOk, AcksOk,
         AcksHeld, BallotsHeld, ElectionVotes, LeaderAcks;
    var m := args.prevLogIndex + |args.entries|;
    MergeKeeps(c, srv, v, src, args);
    AcceptedPrefix(c, v, m);
    CommitAfterMerge(c, Accept(c, v, m), WithMerged(srv, args), v, src, args);
  }

  /** What a reply to an AppendEntries may claim. */
  ghost predicate AppendReplyOk(h: History, dst: nat, args: AppendArgs, reply: AppendReply) {
    (reply.success ==> Acked(h, dst, args.term, args.prevLogIndex + |args.entries|))
    && (!reply.success && reply.term <= args.term ==> RejectionOk(args.prevLogIndex, reply))
  }

  /** Where the core stands once server i has become r and the history h. */
  function Moved(c: Core, i: nat, r: Server, h: History): Core
    requires i < |c.nodes|
  {
    Core(c.nodes[i := NodeOf(r)], h)
  }

  /** The receiver of a current AppendEntries before it looks at its log. */
  function Listening(f: Server, args: AppendArgs, room: bool): Server {
    var s1 := CheckCurrentTerm(f, args.term);
    if s1.role != Leader && room then s1.(role := Follower) else s1
  }

  lemma Listens(f: Server, args: AppendArgs, room: bool)
    requires Contiguous(f.log) && AppendArgsOk(f.log, args) && args.term >= f.currentTerm
    ensures Listening(f, args, room).log == f.log && Listening(f, args, room).currentTerm == args.term
    ensures HandleAppendEntries(f, args, room)
            == if PrevMatches(f.log, args)
               then (AdvanceCommit(WithMerged(Listening(f, args, room), args), args), AppendReply(args.term, true, 0, 0))
               else (Listening(f, args, room), Rejection(args.term, f.log, args.prevLogIndex))
  {
    hide Contiguous, AppendArgsOk, PrevMatches, Rejection, AdvanceCommit, AppendNew, DeleteConflicts;
  }

  lemma IgnoresOldTerm(f: Server, args: AppendArgs, room: bool)
    requires Contiguous(f.log) && args.term < f.currentTerm
    ensures HandleAppendEntries(f, args, room) == (f, AppendReply(f.currentTerm, false, 0, 0))
  {
  }

  lemma AppendEntriesKeeps(c: Core, srv: Server, v: nat, src: nat, args: AppendArgs, room: bool) returns (d: Core)
    requires Good(c, srv, v) && AppendArgsSent(c, src, args)
    ensures Contiguous(srv.log) && AppendArgsOk(srv.log, args)
    ensures var (r, reply) := HandleAppendEntries(srv, args, room);
            d == Moved(c, v, r, if reply.success then RecordAck(c.h, v, r.currentTerm, args.prevLogIndex + |args.entries|) else c.h)
            && Good(d, r, v) && HistGrows(c, d) && AppendReplyOk(d.h, v, args, reply)
            && r.commitIndex >= srv.commitIndex
  {
    hide TermLogsOk, ElectionLogs, LeadersHold, ElectionLeaders, NodesOk, ServerOk, BallotsOk, CampaignsOk, AcksOk,
         AcksHeld, BallotsHeld, ElectionVotes, LeaderAcks, Contiguous, AppendArgsOk, AppendNew, DeleteConflicts,
         AdvanceCommit, GetLogEntry, PrevMatches, WithMerged, HandleAppendEntries, HistGrows, Acked;
    SegmentFits(c, srv, v, src, args);
    CheckTermKeeps(c, srv, v, args.term);
    d := TermSeen(c, v, args.term);
    var s1 := CheckCurrentTerm(srv, args.term);
    if args.term < srv.currentTerm {
      IgnoresOldTerm(srv, args, room);
    } else {
      Listens(srv, args, room);
      if s1.role != Leader && room { DemoteKeeps(d, s1, v, Follower); }
      AppendArgsGrow(c, d, src, args);
      d := AppendInTerm(d, Listening(srv, args, room), v, src, args);
      HistGrowsTransitive(c, TermSeen(c, v, args.term), d);
    }
  }

  lemma AppendInTerm(c: Core, srv: Server, v: nat, src: nat, args: AppendArgs) returns (d: Core)
    requires Good(c, srv, v) && AppendArgsSent(c, src, args) && args.term == srv.currentTerm
    requires Contiguous(srv.log) && AppendArgsOk(srv.log, args)
    ensures if PrevMatches(srv.log, args) then
              var r := AdvanceCommit(WithMerged(srv, args), args);
              d == Moved(c, v, r, RecordAck(c.h, v, srv.currentTerm, args.prevLogIndex + |args.entries|))
              && Good(d, r, v) && HistGrows(c, d) && r.commitIndex >= srv.commitIndex
              && Acked(d.h, v, args.term, args.prevLogIndex + |args.entries|)
              && r.currentTerm == srv.currentTerm
            else d == c && RejectionOk(args.prevLogIndex, Rejection(srv.currentTerm, srv.log, args.prevLogIndex))
  {
    if PrevMatches(srv.log, args) {
      AcceptBranchKeeps(c, srv, v, src, args);
      d := Accept(c, v, args.prevLogIndex + |args.entries|);
    } else {
      assert NodeOk(c.nodes[v], v, c.h);
      RejectionPointsBack(srv.log, args, srv.currentTerm, c.h.termLog);
      d := c;
    }
  }

  // ----- the leader's side of the reply -----

  function Matching(matchIndex: map<nat, nat>, target: nat, peers: nat): (r: set<nat>)
    ensures forall j: nat :: j in r <==> j < peers && IndexOf(matchIndex, j) >= target
    ensures |r| == CountMatches(matchIndex, target, peers)
  {
    if peers == 0 then {}
    else
      var rest := Matching(matchIndex, target, peers - 1);
      if IndexOf(matchIndex, peers - 1) >= target then rest + {peers - 1} else rest
  }

  /** Counting matchIndex is counting acknowledgements: the commit test is the commit rule. */
  lemma CountIsQuorum(c: Core, srv: Server, i: nat, target: nat)
    requires ElectionLeaders(c) && LeaderAcks(c.h) && At(c, srv, i) && Leads(c, i) && ProgressOk(c, srv, i)
    requires 0 < target < |srv.log| && srv.log[target].term == srv.currentTerm
    requires 1 + CountMatches(srv.matchIndex, target, |c.nodes|) > |c.nodes| / 2
    ensures Committed(c, srv.currentTerm, target)
  {
    var others := Matching(srv.matchIndex, target, |c.nodes|);
    var q := others + {i};
    assert i !in others;
    assert Quorum(|c.nodes|, q);
    forall v: nat | v in q
      ensures Acked(c.h, v, srv.currentTerm, target)
    {
      if v != i { assert Acked(c.h, v, srv.currentTerm, srv.matchIndex[v]); }
    }
    assert AllAcked(c.h, q, srv.currentTerm, target);
  }

  lemma ProgressMade(c: Core, srv: Server, r: Server, i: nat, peer: nat, target: nat)
    requires ServerOk(c, srv, i) && At(c, srv, i) && Leads(c, i) && peer != i
    requires Acked(c.h, peer, srv.currentTerm, target) && target < |srv.log|
    requires r == srv.(nextIndex := srv.nextIndex[peer := target + 1], matchIndex := srv.matchIndex[peer := target])
    ensures ServerOk(c, r, i)
  {
    SameTallies(c, srv, r, i);
    assert ProgressOk(c, srv, i);
  }

  /** The commit test, once matchIndex is up to date. */
  lemma CommitTestKeeps(c: Core, srv: Server, i: nat, target: nat)
    requires NodesOk(c) && ElectionLeaders(c) && LeaderAcks(c.h) && ServerOk(c, srv, i) && At(c, srv, i)
    requires Leads(c, i) && srv.commitIndex < target < |srv.log| && srv.log[target].term == srv.currentTerm
    requires 1 + CountMatches(srv.matchIndex, target, |c.nodes|) > |c.nodes| / 2 && Contiguous(srv.log)
    ensures var r := ApplyLog(srv.(commitIndex := target));
            ServerOk(c, r, i) && At(c, r, i) && r.commitIndex == target
  {
    CountIsQuorum(c, srv, i, target);
    assert srv.log[..target + 1] <= c.h.termLog[srv.currentTerm];
    AdvanceKeeps(c, srv, i, target);
  }

  lemma SuccessKeeps(c: Core, srv: Server, i: nat, peer: nat, args: AppendArgs)
    requires NodesOk(c) && ElectionLeaders(c) && LeaderAcks(c.h) && ServerOk(c, srv, i) && At(c, srv, i)
    requires Leads(c, i) && peer != i && args.term == srv.currentTerm
    requires args.prevLogIndex + |args.entries| < |srv.log|
    requires Acked(c.h, peer, args.term, args.prevLogIndex + |args.entries|) && Contiguous(srv.log)
    ensures var r := AcceptSuccess(srv, |c.nodes|, peer, args);
            ServerOk(c, r, i) && At(c, r, i) && r.commitIndex >= srv.commitIndex
  {
    hide NodesOk, ElectionLeaders, LeaderAcks, ServerOk, Acked, ApplyLog, CountMatches, LogOk;
    var target := args.prevLogIndex + |args.entries|;
    GoodLog(c, srv, i);
    var r := srv.(nextIndex := srv.nextIndex[peer := target + 1], matchIndex := srv.matchIndex[peer := target]);
    ProgressMade(c, srv, r, i, peer, target);
    if target > r.commitIndex && TermAt(r.log, target) == r.currentTerm
       && 1 + CountMatches(r.matchIndex, target, |c.nodes|) > |c.nodes| / 2
    {
      CommitTestKeeps(c, r, i, target);
    }
  }

  lemma BackupInRange(log: seq<Entry>, prev: nat, reply: AppendReply)
    requires Uncompacted(log) && Contiguous(log) && prev < |log| && RejectionOk(prev, reply)
    ensures 1 <= Backup(log, reply) <= |log|
  {
  }

  lemma BackedUpOk(c: Core, srv: Server, i: nat, peer: nat, next: nat)
    requires ServerOk(c, srv, i) && At(c, srv, i) && 1 <= next <= |srv.log|
    ensures ServerOk(c, srv.(nextIndex := srv.nextIndex[peer := next]), i)
  {
    SameTallies(c, srv, srv.(nextIndex := srv.nextIndex[peer := next]), i);
  }

  lemma ReplyInTermKeeps(c: Core, srv: Server, i: nat, peer: nat, args: AppendArgs, reply: AppendReply)
    requires NodesOk(c) && ElectionLeaders(c) && LeaderAcks(c.h) && AcksOk(c) && ServerOk(c, srv, i) && At(c, srv, i)
    requires peer != i && Segment(c.h, i, args) && AppendReplyOk(c.h, peer, args, reply)
    requires args.term >= srv.currentTerm && srv.role != Follower && reply.term <= srv.currentTerm
    requires Contiguous(srv.log)
    ensures var r := HandleAppendReply(srv, |c.nodes|, peer, args, reply);
            ServerOk(c, r, i) && At(c, r, i) && r.commitIndex >= srv.commitIndex
  {
    hide NodesOk, ElectionLeaders, LeaderAcks, AcksOk, ServerOk, Acked, AcceptSuccess, Segment, Backup, LogOk, Contiguous, Leads;
    SentInOwnTerm(c, srv, i, args);
    if reply.success {
      SuccessKeeps(c, srv, i, peer, args);
    } else {
      GoodLog(c, srv, i);
      BackupInRange(srv.log, args.prevLogIndex, reply);
      BackedUpOk(c, srv, i, peer, Backup(srv.log, reply));
    }
  }

  lemma AppendReplyKeeps(c: Core, srv: Server, i: nat, peer: nat, args: AppendArgs, reply: AppendReply)
    requires Good(c, srv, i) && peer != i && AppendArgsSent(c, i, args) && AppendReplyOk(c.h, peer, args, reply)
    ensures Contiguous(srv.log)
    ensures var r := HandleAppendReply(srv, |c.nodes|, peer, args, reply);
            var d := if args.term < srv.currentTerm then c else TermSeen(c, i, reply.term);
            Good(d, r, i) && HistGrows(c, d) && d.h == c.h && r.commitIndex >= srv.commitIndex
  {
    hide TermLogsOk, ElectionLogs, LeadersHold, ElectionLeaders, NodesOk, ServerOk, BallotsOk, CampaignsOk, AcksOk,
         AcksHeld, BallotsHeld, ElectionVotes, LeaderAcks;
    GoodLog(c, srv, i);
    if args.term >= srv.currentTerm {
      CheckTermKeeps(c, srv, i, reply.term);
      if reply.term <= srv.currentTerm && srv.role != Follower {
        ReplyInTermKeeps(c, srv, i, peer, args, reply);
      }
    }
  }

  lemma SentInOwnTerm(c: Core, srv: Server, i: nat, args: AppendArgs)
    requires ElectionLeaders(c) && At(c, srv, i) && Segment(c.h, i, args) && args.term >= srv.currentTerm
    ensures args.term == srv.currentTerm && Leads(c, i) && c.h.termLog[args.term] == srv.log
    ensures args.prevLogIndex + |args.entries| < |srv.log|
  {
  }
}
