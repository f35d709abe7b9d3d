/** Each handler keeps the server invariant, moving the core by one of its transitions. */
module RaftHandlers {
  import opened Commands
  import opened RaftServer
  import opened RaftCore
  import opened RaftCoreSteps
  import opened RaftCommitted
  import opened RaftReconcile
  import opened RaftServerInv

  // ----- role changes and restarts -----

  lemma DemoteKeeps(c: Core, srv: Server, i: nat, role: Role)
    requires ServerOk(c, srv, i) && At(c, srv, i) && role != Leader
    ensures ServerOk(c, srv.(role := role), i) && At(c, srv.(role := role), i)
  {
    SameTallies(c, srv, srv.(role := role), i);
  }

  lemma SameTallies(c: Core, srv: Server, r: Server, i: nat)
    requires TalliesOk(c, srv, i) && r.tallies == srv.tallies
    ensures TalliesOk(c, r, i)
  {
    forall t | t in r.tallies
      ensures TallyOk(c, r.tallies[t], i, t)
    {
      assert TallyOk(c, srv.tallies[t], i, t);
    }
  }

  /** A crash loses nothing durable, and the volatile state starts afresh. */
  lemma BootKeeps(c: Core, srv: Server, i: nat)
    requires Good(c, srv, i)
    ensures Good(c, Boot(srv.disk), i)
  {
    var r := Boot(srv.disk);
    GoodLog(c, srv, i);
    assert r.log == srv.log && r.currentTerm == srv.currentTerm && r.votedFor == srv.votedFor;
    assert r.log[..1] == [SENTINEL];
  }

  // ----- elections -----

  /** What a RequestVote says about its sender. */
  ghost predicate VoteArgsOk(h: History, src: nat, args: VoteArgs) {
    args.candidateId == src && Slot(src, args.term) in h.campaigns
    && var log := h.campaigns[Slot(src, args.term)];
       |log| > 0 && args.lastLogIndex == |log| - 1 && args.lastLogTerm == LastTerm(log)
  }

  lemma CampaignGrows(c: Core, i: nat)
    requires CampaignsOk(c) && BallotsOk(c) && i < |c.nodes|
    ensures HistGrows(c, Campaign(c, i)) && VotedFor(Campaign(c, i).h, {i}, c.nodes[i].term + 1, i)
  {
    NoFutureRecords(c, Slot(i, c.nodes[i].term + 1));
  }

  lemma CandidateOk(c: Core, srv: Server, i: nat)
    requires ServerOk(c, srv, i) && At(c, srv, i) && Contiguous(srv.log)
    requires ElectionLeaders(c) && CampaignsOk(c) && BallotsOk(c)
    ensures ServerOk(Campaign(c, i), StartElection(srv, i).0, i) && HistGrows(c, Campaign(c, i))
  {
    var d, r, t := Campaign(c, i), StartElection(srv, i).0, srv.currentTerm + 1;
    CampaignGrows(c, i);
    TalliesGrow(c, d, srv, i);
    forall u | u in r.tallies
      ensures TallyOk(d, r.tallies[u], i, u)
    {
      if u == t { assert {} + {i} == {i}; } else { assert TallyOk(d, srv.tallies[u], i, u); }
    }
    SettledGrows(c, d, srv.log[..srv.commitIndex + 1], srv.currentTerm, t);
    NotYetLeader(c, i, t);
  }

  lemma StartElectionKeeps(c: Core, srv: Server, i: nat)
    requires Good(c, srv, i)
    ensures Contiguous(srv.log)
    ensures var (r, args) := StartElection(srv, i); var d := Campaign(c, i);
            Good(d, r, i) && HistGrows(c, d) && args.term == srv.currentTerm + 1 && VoteArgsOk(d.h, i, args)
  {
    GoodLog(c, srv, i);
    CampaignKeeps(c, i);
    CandidateOk(c, srv, i);
    CampaignArgs(c, srv, i);
  }

  lemma CampaignArgs(c: Core, srv: Server, i: nat)
    requires At(c, srv, i) && Uncompacted(srv.log) && Contiguous(srv.log) && srv.log[0] == SENTINEL
    ensures var (r, args) := StartElection(srv, i); var d := Campaign(c, i);
            At(d, r, i) && args.term == srv.currentTerm + 1 && VoteArgsOk(d.h, i, args)
  {
  }

  function VoteServed(c: Core, srv: Server, i: nat, args: VoteArgs): Core
    requires i < |c.nodes| && Contiguous(srv.log)
  {
    var d := TermSeen(c, i, args.term);
    if HandleRequestVote(srv, args).1.voteGranted then Grant(d, i, args.candidateId) else d
  }

  lemma RequestVoteKeeps(c: Core, srv: Server, i: nat, src: nat, args: VoteArgs)
    requires Good(c, srv, i) && VoteArgsOk(c.h, src, args)
    ensures Contiguous(srv.log)
    ensures var (r, reply) := HandleRequestVote(srv, args); var d := VoteServed(c, srv, i, args);
            Good(d, r, i) && HistGrows(c, d)
            && (reply.voteGranted ==> VotedFor(d.h, {i}, args.term, src))
  {
    GoodLog(c, srv, i);
    CheckTermKeeps(c, srv, i, args.term);
    var c1, s1 := TermSeen(c, i, args.term), CheckCurrentTerm(srv, args.term);
    if HandleRequestVote(srv, args).1.voteGranted {
      GoodLog(c1, s1, i);
      GrantVoteKeeps(c1, s1, i, src, args);
    }
  }

  lemma GrantGrows(c: Core, v: nat, candidate: nat)
    requires v < |c.nodes|
    ensures HistGrows(c, Grant(c, v, candidate))
  {
  }

  /** A server whose term, log and progress did not change stays in order as the history grows. */
  lemma SameTermOk(c: Core, d: Core, srv: Server, r: Server, i: nat)
    requires ServerOk(c, srv, i) && At(c, srv, i) && HistGrows(c, d) && At(d, r, i)
    requires d.h.elections == c.h.elections && Synced(r)
    requires r == srv.(votedFor := r.votedFor, disk := r.disk)
    ensures ServerOk(d, r, i)
  {
    TalliesGrow(c, d, srv, i);
    SameTallies(d, srv, r, i);
    SettledGrows(c, d, srv.log[..srv.commitIndex + 1], srv.currentTerm, srv.currentTerm);
    if Leads(c, i) { ProgressGrows(c, d, srv, i); }
  }

  lemma GrantAllowed(c: Core, srv: Server, i: nat, src: nat, args: VoteArgs)
    requires At(c, srv, i) && VoteArgsOk(c.h, src, args) && args.term == srv.currentTerm
    requires Uncompacted(srv.log) && (srv.votedFor == -1 || srv.votedFor == src) && UpToDate(args, srv.log)
    ensures MayGrant(c, i, src) && At(Grant(c, i, src), GrantVote(srv, src), i)
    ensures Grant(c, i, src).h.elections == c.h.elections
  {
  }

  lemma GrantVoteKeeps(c: Core, srv: Server, i: nat, src: nat, args: VoteArgs)
    requires Good(c, srv, i) && VoteArgsOk(c.h, src, args) && args.term == srv.currentTerm
    requires Uncompacted(srv.log) && (srv.votedFor == -1 || srv.votedFor == src) && UpToDate(args, srv.log)
    ensures var d := Grant(c, i, src);
            Good(d, GrantVote(srv, src), i) && HistGrows(c, d) && VotedFor(d.h, {i}, args.term, src)
  {
    GrantAllowed(c, srv, i, src, args);
    GrantKeeps(c, i, src);
    GrantGrows(c, i, src);
    SameTermOk(c, Grant(c, i, src), srv, GrantVote(srv, src), i);
  }

  lemma NewTallyOk(c: Core, y: Tally, i: nat, t: nat, peer: nat)
    requires TallyOk(c, y, i, t) && peer < |c.nodes| && peer != i && peer !in y.recorded && i < |c.nodes|
    requires VotedFor(c.h, {peer}, t, i)
    ensures var z := Tally(y.recorded + {peer}, y.count + 1);
            TallyOk(c, z, i, t) && |z.recorded + {i}| == z.count
            && (z.count > |c.nodes| / 2 ==> Quorum(|c.nodes|, z.recorded + {i}))
  {
    hide Quorum;
    TallyGrows(c, y, i, t, peer);
    CountedQuorum(|c.nodes|, y.recorded + {peer} + {i}, y.count + 1);
  }

  lemma TallyGrows(c: Core, y: Tally, i: nat, t: nat, peer: nat)
    requires TallyOk(c, y, i, t) && peer < |c.nodes| && peer != i && peer !in y.recorded && i < |c.nodes|
    requires VotedFor(c.h, {peer}, t, i)
    ensures TallyOk(c, Tally(y.recorded + {peer}, y.count + 1), i, t) && |y.recorded + {peer} + {i}| == y.count + 1
    ensures forall v: nat :: v in y.recorded + {peer} + {i} ==> v < |c.nodes|
  {
    hide VotedFor;
    TwoMore(y.recorded, peer, i);
    VotesJoin(c.h, y.recorded, peer, t, i);
  }

  lemma TwoMore(s: set<nat>, peer: nat, i: nat)
    requires peer !in s && i !in s && peer != i
    ensures |s + {peer}| == |s| + 1 && |s + {peer} + {i}| == |s| + 2
  {
  }

  lemma VotesJoin(h: History, s: set<nat>, peer: nat, t: nat, i: nat)
    requires VotedFor(h, s + {i}, t, i) && VotedFor(h, {peer}, t, i)
    ensures VotedFor(h, s + {peer} + {i}, t, i)
  {
  }

  lemma CountedQuorum(n: nat, voters: set<nat>, count: nat)
    requires |voters| == count && forall v: nat :: v in voters ==> v < n
    ensures count > n / 2 ==> Quorum(n, voters)
  {
  }

  /** What the counted reply does to the core: nothing, unless it completes a majority. */
  function VoteTaken(c: Core, srv: Server, i: nat, peer: nat, args: VoteArgs, reply: VoteReply): Core
    requires i < |c.nodes| && Contiguous(srv.log) && c.nodes[i].log == srv.log
  {
    var d := TermSeen(c, i, reply.term);
    var r := HandleVoteReply(srv, |c.nodes|, peer, args, reply);
    if r.role == Leader && srv.role != Leader && r.currentTerm in r.tallies
    then Elect(d, i, r.tallies[r.currentTerm].recorded + {i})
    else d
  }

  lemma VoteReplyKeeps(c: Core, srv: Server, i: nat, peer: nat, args: VoteArgs, reply: VoteReply)
    requires Good(c, srv, i) && peer < |c.nodes| && peer != i
    requires reply.voteGranted ==> VotedFor(c.h, {peer}, args.term, i)
    ensures Contiguous(srv.log)
    ensures var r := HandleVoteReply(srv, |c.nodes|, peer, args, reply);
            var d := VoteTaken(c, srv, i, peer, args, reply); Good(d, r, i) && HistGrows(c, d)
  {
    hide TermLogsOk, ElectionLogs, LeadersHold, ElectionLeaders, NodesOk, ServerOk, BallotsOk, CampaignsOk, AcksOk,
         AcksHeld, BallotsHeld, ElectionVotes, LeaderAcks;
    GoodLog(c, srv, i);
    CheckTermKeeps(c, srv, i, reply.term);
    var c1, s1 := TermSeen(c, i, reply.term), CheckCurrentTerm(srv, reply.term);
    GoodLog(c1, s1, i);
    if s1.role == Candidate && reply.voteGranted && args.term == s1.currentTerm
       && args.term in s1.tallies && peer !in s1.tallies[args.term].recorded
    {
      CountVoteKeeps(c1, s1, i, peer, args.term);
      assert HandleVoteReply(srv, |c.nodes|, peer, args, reply)
          == var r := Counted(s1, args.term, peer);
             if r.tallies[args.term].count > |c.nodes| / 2 then BecomeLeader(r, |c.nodes|) else r;
    }
  }

  function Counted(srv: Server, t: nat, peer: nat): Server
    requires t in srv.tallies
  {
    var y := srv.tallies[t];
    srv.(tallies := srv.tallies[t := Tally(y.recorded + {peer}, y.count + 1)])
  }

  lemma CountedOk(c: Core, srv: Server, i: nat, peer: nat, t: nat)
    requires ServerOk(c, srv, i) && At(c, srv, i) && peer < |c.nodes| && peer != i
    requires t in srv.tallies && peer !in srv.tallies[t].recorded && VotedFor(c.h, {peer}, t, i)
    ensures var r := Counted(srv, t, peer);
            ServerOk(c, r, i) && VotedFor(c.h, r.tallies[t].recorded + {i}, t, i)
            && (r.tallies[t].count > |c.nodes| / 2 ==> Quorum(|c.nodes|, r.tallies[t].recorded + {i}))
  {
    var r := Counted(srv, t, peer);
    assert TallyOk(c, srv.tallies[t], i, t);
    NewTallyOk(c, srv.tallies[t], i, t, peer);
    forall u | u in r.tallies
      ensures TallyOk(c, r.tallies[u], i, u)
    {
      if u != t { assert TallyOk(c, srv.tallies[u], i, u); }
    }
  }

  lemma CountVoteKeeps(c: Core, srv: Server, i: nat, peer: nat, t: nat)
    requires Good(c, srv, i) && peer < |c.nodes| && peer != i && t == srv.currentTerm
    requires t in srv.tallies && peer !in srv.tallies[t].recorded
    requires VotedFor(c.h, {peer}, t, i) && Contiguous(srv.log)
    ensures var r := Counted(srv, t, peer);
            if r.tallies[t].count > |c.nodes| / 2 then
              var d := Elect(c, i, r.tallies[t].recorded + {i});
              Good(d, BecomeLeader(r, |c.nodes|), i) && HistGrows(c, d)
            else Good(c, r, i)
  {
    var r := Counted(srv, t, peer);
    CountedOk(c, srv, i, peer, t);
    if r.tallies[t].count > |c.nodes| / 2 { PromoteKeeps(c, r, i, r.tallies[t].recorded + {i}); }
  }

  lemma PromotedOk(c: Core, d: Core, srv: Server, i: nat)
    requires ServerOk(c, srv, i) && At(c, srv, i) && At(d, srv, i) && HistGrows(c, d) && Contiguous(srv.log)
    requires Uncompacted(srv.log) && Leads(d, i)
    ensures ServerOk(d, BecomeLeader(srv, |d.nodes|), i)
  {
    var r := BecomeLeader(srv, |d.nodes|);
    TalliesGrow(c, d, srv, i);
    SameTallies(d, srv, r, i);
    SettledGrows(c, d, srv.log[..srv.commitIndex + 1], srv.currentTerm, srv.currentTerm);
    assert ProgressOk(d, r, i);
  }

  lemma PromoteKeeps(c: Core, srv: Server, i: nat, voters: set<nat>)
    requires Good(c, srv, i) && Quorum(|c.nodes|, voters) && VotedFor(c.h, voters, srv.currentTerm, i)
    requires Contiguous(srv.log)
    ensures var d := Elect(c, i, voters); Good(d, BecomeLeader(srv, |c.nodes|), i) && HistGrows(c, d)
  {
    GoodLog(c, srv, i);
    ElectKeeps(c, i, voters);
    ElectGrows(c, i, voters);
    PromotedOk(c, Elect(c, i, voters), srv, i);
  }

  lemma ElectGrows(c: Core, i: nat, voters: set<nat>)
    requires TermLogsOk(c.h) && AcksOk(c) && i < |c.nodes| && c.nodes[i].log != []
    ensures HistGrows(c, Elect(c, i, voters))
  {
  }

  // ----- client commands -----

  lemma ExtendedOk(c: Core, d: Core, srv: Server, r: Server, i: nat)
    requires ServerOk(c, srv, i) && At(c, srv, i) && At(d, r, i) && HistGrows(c, d) && Leads(c, i)
    requires r == srv.(log := r.log, disk := r.disk) && Synced(r) && srv.log <= r.log
    ensures ServerOk(d, r, i)
  {
    TalliesGrow(c, d, srv, i);
    SameTallies(d, srv, r, i);
    assert r.log[..srv.commitIndex + 1] == srv.log[..srv.commitIndex + 1];
    SettledGrows(c, d, srv.log[..srv.commitIndex + 1], srv.currentTerm, srv.currentTerm);
    ProgressGrows(c, d, srv, i);
  }

  lemma ExtendAt(c: Core, srv: Server, i: nat, command: Command)
    requires At(c, srv, i) && Uncompacted(srv.log) && Contiguous(srv.log) && srv.role == Leader
    ensures var r := StartCommand(srv, command).0;
            At(Extend(c, i, command), r, i) && srv.log <= r.log && Synced(r)
  {
  }

  lemma StartCommandKeeps(c: Core, srv: Server, i: nat, command: Command)
    requires Good(c, srv, i)
    ensures Contiguous(srv.log)
    ensures var (r, index, term, isLeader) := StartCommand(srv, command);
            var d := if isLeader then Extend(c, i, command) else c;
            Good(d, r, i) && HistGrows(c, d) && isLeader == (srv.role == Leader) && term == srv.currentTerm
  {
    GoodLog(c, srv, i);
    if srv.role == Leader {
      ExtendKeeps(c, i, command);
      ExtendGrows(c, i, command);
      ExtendAt(c, srv, i, command);
      ExtendedOk(c, Extend(c, i, command), srv, StartCommand(srv, command).0, i);
    }
  }

  lemma ExtendGrows(c: Core, i: nat, command: Command)
    requires ElectionLeaders(c) && AcksOk(c) && Leads(c, i) && NodesOk(c)
    ensures HistGrows(c, Extend(c, i, command))
  {
    assert NodeOk(c.nodes[i], i, c.h);
    ExtendOnlyLogs(c, i, command);
  }
}
