/** What every run of the cluster satisfies: the five properties Raft promises, the vote and
    commit disciplines behind them, and what the service above relies on. */
module RaftTheorems {
  import opened RaftServer
  import opened RaftCore
  import opened RaftCommitted
  import opened RaftServerInv
  import opened RaftReplication
  import opened RaftSystem
  import opened RaftSafety

  // ----- elections -----

  /** Server i's own count of votes for term t passes the majority test. */
  ghost predicate TallyPasses(s: State, i: nat, t: nat) {
    i < |s.servers| && t in s.servers[i].tallies && s.servers[i].tallies[t].count > |s.servers| / 2
  }

  lemma PassingTallyIsQuorum(s: State, i: nat, t: nat)
    requires Inv(s) && TallyPasses(s, i, t)
    ensures var voters := s.servers[i].tallies[t].recorded + {i};
            Quorum(|s.servers|, voters) && VotedFor(s.h, voters, t, i)
  {
    hide CoreInv, CoreOf;
    Member(s, i);
    var y := s.servers[i].tallies[t];
    assert TallyOk(CoreOf(s), y, i, t);
    assert |y.recorded + {i}| == |y.recorded| + 1;
  }

  /** Election Safety: over a whole run, crashes included, at most one server's tally passes the
      majority test in a term. */
  lemma ElectionSafety(n: nat, states: seq<State>, steps: seq<Step>, a: nat, b: nat, i: nat, j: nat, t: nat)
    requires Run(n, states, steps) && a <= b < |states|
    requires TallyPasses(states[a], i, t) && TallyPasses(states[b], j, t)
    ensures i == j
  {
    hide CoreInv, ServersOk, NetOk, DeliveredOk;
    RunInv(n, states, steps, a);
    RunInv(n, states, steps, b);
    RunAdvances(n, states, steps, a, b);
    PassingTallyIsQuorum(states[a], i, t);
    PassingTallyIsQuorum(states[b], j, t);
    var ca, cb := CoreOf(states[a]), CoreOf(states[b]);
    VotedForGrows(ca, cb, states[a].servers[i].tallies[t].recorded + {i}, t, i);
    OneLeader(cb, t, i, j, states[a].servers[i].tallies[t].recorded + {i},
              states[b].servers[j].tallies[t].recorded + {j});
  }

  /** Two servers that are leaders of the same term, at any two moments of a run, are one server. */
  lemma OneLeaderPerTerm(n: nat, states: seq<State>, steps: seq<Step>, a: nat, b: nat, i: nat, j: nat)
    requires Run(n, states, steps) && a <= b < |states| && i < |states[a].servers| && j < |states[b].servers|
    requires states[a].servers[i].role == Leader && states[b].servers[j].role == Leader
    requires states[a].servers[i].currentTerm == states[b].servers[j].currentTerm
    ensures i == j
  {
    hide CoreInv, ServersOk, NetOk, DeliveredOk;
    RunInv(n, states, steps, a);
    RunInv(n, states, steps, b);
    RunAdvances(n, states, steps, a, b);
    Member(states[a], i);
    Member(states[b], j);
  }

  /** A vote is never changed within a term, not even by a crash. */
  lemma VotesAreDurable(n: nat, states: seq<State>, steps: seq<Step>, a: nat, b: nat, i: nat)
    requires Run(n, states, steps) && a <= b < |states| && i < |states[a].servers| && i < |states[b].servers|
    requires states[a].servers[i].currentTerm == states[b].servers[i].currentTerm
    requires states[a].servers[i].votedFor != -1
    ensures states[b].servers[i].votedFor == states[a].servers[i].votedFor
  {
    RunInv(n, states, steps, a);
    RunInv(n, states, steps, b);
    RunAdvances(n, states, steps, a, b);
    var ca, cb := CoreOf(states[a]), CoreOf(states[b]);
    VoteRecorded(ca, i);
    VoteRemembered(ca, cb, i, ca.nodes[i].term);
  }

  lemma VoteRecorded(c: Core, i: nat)
    requires CoreInv(c) && i < |c.nodes| && c.nodes[i].vote != -1
    ensures var s := Slot(i, c.nodes[i].term); s in c.h.ballots && c.h.ballots[s].candidate == c.nodes[i].vote
  {
    hide TermLogsOk, ElectionLogs, LeadersHold, ElectionLeaders, BallotsOk, CampaignsOk, AcksOk,
         AcksHeld, BallotsHeld, ElectionVotes, LeaderAcks;
    assert NodeOk(c.nodes[i], i, c.h);
  }

  lemma VoteRemembered(c: Core, d: Core, i: nat, t: nat)
    requires CoreInv(d) && HistGrows(c, d) && i < |d.nodes| && Slot(i, t) in c.h.ballots && d.nodes[i].term == t
    ensures d.nodes[i].vote == c.h.ballots[Slot(i, t)].candidate
  {
    hide TermLogsOk, ElectionLogs, LeadersHold, ElectionLeaders, NodesOk, CampaignsOk, AcksOk,
         AcksHeld, BallotsHeld, ElectionVotes, LeaderAcks;
    assert BallotOk(d, Slot(i, t));
  }

  // ----- logs -----

  /** Log Matching, across servers and across time. */
  lemma LogMatchingInRuns(n: nat, states: seq<State>, steps: seq<Step>, a: nat, b: nat, i: nat, j: nat, k: nat)
    requires Run(n, states, steps) && a <= b < |states| && i < |states[a].servers| && j < |states[b].servers|
    requires k < |states[a].servers[i].log| && k < |states[b].servers[j].log|
    requires states[a].servers[i].log[k].term == states[b].servers[j].log[k].term
    ensures states[a].servers[i].log[..k + 1] == states[b].servers[j].log[..k + 1]
    ensures states[a].servers[i].log[k].index == k
  {
    hide CoreInv, ServersOk, NetOk, DeliveredOk;
    RunInv(n, states, steps, a);
    RunInv(n, states, steps, b);
    RunAdvances(n, states, steps, a, b);
    var ca, cb := CoreOf(states[a]), CoreOf(states[b]);
    Member(states[a], i);
    Member(states[b], j);
    LogInOrder(states[a], i);
    LogInOrder(states[b], j);
    LogOkGrows(states[a].servers[i].log, ca.h.termLog, cb.h.termLog);
    LogMatching(states[a].servers[i].log, states[b].servers[j].log, cb.h.termLog, k);
  }

  lemma LogInOrder(s: State, i: nat)
    requires Inv(s) && i < |s.servers|
    ensures LogOk(s.servers[i].log, s.h.termLog)
  {
    Member(s, i);
    GoodLog(CoreOf(s), s.servers[i], i);
  }

  // ----- committed entries -----

  /** The part of server i's log that it considers committed. */
  function CommittedPrefix(srv: Server): seq<Entry>
    requires srv.commitIndex < |srv.log|
  {
    srv.log[..srv.commitIndex + 1]
  }

  lemma CommitIndexInLog(s: State, i: nat)
    requires Inv(s) && i < |s.servers|
    ensures s.servers[i].commitIndex < |s.servers[i].log|
    ensures Settled(CoreOf(s), CommittedPrefix(s.servers[i]), s.servers[i].currentTerm)
    ensures s.servers[i].lastApplied == s.servers[i].commitIndex && AppliedInOrder(s.servers[i])
    ensures s.servers[i].log[0] == SENTINEL
  {
    Member(s, i);
    GoodLog(CoreOf(s), s.servers[i], i);
  }

  /** Leader Completeness: what any server took as committed while in a term is in the log of
      every server that leads that term or a later one from then on. */
  lemma LeaderCompleteness(n: nat, states: seq<State>, steps: seq<Step>, a: nat, b: nat, i: nat, j: nat)
    requires Run(n, states, steps) && a <= b < |states| && i < |states[a].servers| && j < |states[b].servers|
    requires states[b].servers[j].role == Leader
    requires states[a].servers[i].currentTerm <= states[b].servers[j].currentTerm
    ensures states[a].servers[i].commitIndex < |states[a].servers[i].log|
    ensures CommittedPrefix(states[a].servers[i]) <= states[b].servers[j].log
  {
    hide ServersOk, NetOk, DeliveredOk;
    RunInv(n, states, steps, a);
    RunInv(n, states, steps, b);
    RunAdvances(n, states, steps, a, b);
    var ca, cb := CoreOf(states[a]), CoreOf(states[b]);
    var prefix, t, u := states[a].servers[i], states[a].servers[i].currentTerm, states[b].servers[j].currentTerm;
    CommitIndexInLog(states[a], i);
    SettledGrows(ca, cb, CommittedPrefix(states[a].servers[i]), t, u);
    LeaderHasTermLog(states[b], j);
    SettledInCore(cb, CommittedPrefix(states[a].servers[i]), u, u);
  }

  lemma LeaderHasTermLog(s: State, j: nat)
    requires Inv(s) && j < |s.servers| && s.servers[j].role == Leader
    ensures s.servers[j].currentTerm in s.h.termLog && s.h.termLog[s.servers[j].currentTerm] == s.servers[j].log
  {
    hide TermLogsOk, ElectionLogs, LeadersHold, NodesOk, CampaignsOk, AcksOk, BallotsOk,
         AcksHeld, BallotsHeld, ElectionVotes, LeaderAcks, NetOk, DeliveredOk;
    assert ServerOk(CoreOf(s), s.servers[j], j);
  }

  lemma SettledInCore(c: Core, log: seq<Entry>, bound: nat, u: nat)
    requires CoreInv(c) && Settled(c, log, bound) && bound <= u && u in c.h.termLog
    ensures log <= c.h.termLog[u]
  {
    hide TermLogsOk, ElectionLogs, LeadersHold, NodesOk, CampaignsOk, AcksOk, BallotsOk,
         AcksHeld, BallotsHeld, ElectionVotes, LeaderAcks, ElectionLeaders, Settled;
    SettledInLeader(c, log, bound, u);
  }

  lemma WinnerHasCommitted(c: Core, t: nat, k: nat, u: nat)
    requires CoreInv(c) && Committed(c, t, k) && u in c.h.elections && t < u
    ensures k < |c.h.elections[u].log| && c.h.elections[u].log[..k + 1] == c.h.termLog[t][..k + 1]
  {
    hide NodesOk, CampaignsOk, AcksOk, BallotsOk, AcksHeld, BallotsHeld, ElectionVotes, LeaderAcks, ElectionLeaders;
    CommittedIsChoosable(c, t, k);
    assert Has(c.h.elections[u].log, t, k);
    LaterLeaderHas(c, t, u, k);
    assert c.h.elections[u].log[..k + 1] == c.h.termLog[u][..k + 1];
  }

  lemma WinnerHasSettled(c: Core, log: seq<Entry>, bound: nat, u: nat)
    requires CoreInv(c) && Settled(c, log, bound) && bound < u && u in c.h.elections
    ensures log <= c.h.elections[u].log
  {
    hide NodesOk, CampaignsOk, AcksOk, BallotsOk, AcksHeld, BallotsHeld, ElectionVotes, LeaderAcks, ElectionLeaders, LeadersHold;
    if log == [SENTINEL] {
      StartsWithSentinel(c.h, u);
    } else {
      var t: nat, k: nat :| Committed(c, t, k) && t <= bound && |log| <= k + 1 && log <= c.h.termLog[t];
      WinnerHasCommitted(c, t, k, u);
      PrefixThrough(log, c.h.termLog[t], c.h.elections[u].log, k);
    }
  }

  /** Leader Completeness, the other way round in time: a server that was already leading a later
      term when the commitment was made had been elected with the committed entries. */
  lemma LeaderCompletenessEarlier(n: nat, states: seq<State>, steps: seq<Step>, a: nat, b: nat, i: nat, j: nat)
    requires Run(n, states, steps) && b <= a < |states| && i < |states[a].servers| && j < |states[b].servers|
    requires states[b].servers[j].role == Leader
    requires states[a].servers[i].currentTerm < states[b].servers[j].currentTerm
    ensures states[a].servers[i].commitIndex < |states[a].servers[i].log|
    ensures CommittedPrefix(states[a].servers[i]) <= states[b].servers[j].log
  {
    hide ServersOk, NetOk, DeliveredOk;
    RunInv(n, states, steps, a);
    RunInv(n, states, steps, b);
    RunAdvances(n, states, steps, b, a);
    var u := states[b].servers[j].currentTerm;
    CommitIndexInLog(states[a], i);
    LeaderWonTerm(states[b], j);
    WinnerHasSettled(CoreOf(states[a]), CommittedPrefix(states[a].servers[i]), states[a].servers[i].currentTerm, u);
  }

  lemma LeaderWonTerm(s: State, j: nat)
    requires Inv(s) && j < |s.servers| && s.servers[j].role == Leader
    ensures s.servers[j].currentTerm in s.h.elections
    ensures s.h.elections[s.servers[j].currentTerm].log <= s.servers[j].log
  {
    hide TermLogsOk, LeadersHold, NodesOk, CampaignsOk, AcksOk, BallotsOk,
         AcksHeld, BallotsHeld, ElectionVotes, LeaderAcks, NetOk, DeliveredOk;
    assert ServerOk(CoreOf(s), s.servers[j], j);
  }

  lemma SettledAgreeInCore(c: Core, a: seq<Entry>, b: seq<Entry>, boundA: nat, boundB: nat)
    requires CoreInv(c) && Settled(c, a, boundA) && Settled(c, b, boundB) && a != [] && b != []
    ensures a <= b || b <= a
  {
    hide TermLogsOk, ElectionLogs, LeadersHold, NodesOk, CampaignsOk, AcksOk, BallotsOk,
         AcksHeld, BallotsHeld, ElectionVotes, LeaderAcks, ElectionLeaders, Settled;
    SettledAgree(c, a, b, boundA, boundB);
  }

  /** Committed prefixes of any two servers, at any two moments, are prefixes of one another. */
  lemma CommittedPrefixesAgree(n: nat, states: seq<State>, steps: seq<Step>, a: nat, b: nat, i: nat, j: nat)
    requires Run(n, states, steps) && a <= b < |states| && i < |states[a].servers| && j < |states[b].servers|
    ensures var x, y := states[a].servers[i], states[b].servers[j];
            x.commitIndex < |x.log| && y.commitIndex < |y.log|
            && (CommittedPrefix(x) <= CommittedPrefix(y) || CommittedPrefix(y) <= CommittedPrefix(x))
  {
    hide ServersOk, NetOk, DeliveredOk, CoreInv;
    RunInv(n, states, steps, a);
    RunInv(n, states, steps, b);
    RunAdvances(n, states, steps, a, b);
    CommitIndexInLog(states[a], i);
    CommitIndexInLog(states[b], j);
    var x, y := states[a].servers[i], states[b].servers[j];
    SettledGrows(CoreOf(states[a]), CoreOf(states[b]), CommittedPrefix(x), x.currentTerm, x.currentTerm);
    SettledAgreeInCore(CoreOf(states[b]), CommittedPrefix(x), CommittedPrefix(y), x.currentTerm, y.currentTerm);
  }

  /** State Machine Safety: no two servers, in any incarnation, ever hand different commands to
      the service at one index. */
  lemma StateMachineSafety(n: nat, states: seq<State>, steps: seq<Step>, a: nat, b: nat, x: Delivery, y: Delivery)
    requires Run(n, states, steps) && a <= b < |states|
    requires x in states[a].delivered && y in states[b].delivered && x.msg.index == y.msg.index
    ensures x.msg.command == y.msg.command
  {
    hide CoreInv, ServersOk, NetOk;
    RunInv(n, states, steps, b);
    RunInv(n, states, steps, a);
    RunAdvances(n, states, steps, a, b);
    DeliveriesAgree(CoreOf(states[b]), x.msg, y.msg);
  }

  lemma DeliveriesAgree(c: Core, x: ApplyMsg, y: ApplyMsg)
    requires CoreInv(c) && DeliveryOk(c, x) && DeliveryOk(c, y) && x.index == y.index
    ensures x.command == y.command
  {
    hide CoreInv, Settled;
    var a: seq<Entry>, boundA: nat :| Settled(c, a, boundA) && 1 <= x.index < |a| && a[x.index].command == x.command;
    var b: seq<Entry>, boundB: nat :| Settled(c, b, boundB) && 1 <= y.index < |b| && b[y.index].command == y.command;
    SettledAgreeInCore(c, a, b, boundA, boundB);
  }

  /** Each incarnation hands over the commands of its log at 1, 2, 3, ... up to commitIndex,
      with no gap and no repeat, and each is on record as delivered by this server. */
  lemma AppliesInOrder(n: nat, states: seq<State>, steps: seq<Step>, a: nat, i: nat)
    requires Run(n, states, steps) && a < |states| && i < |states[a].servers|
    ensures var srv := states[a].servers[i];
            |srv.applyCh| == srv.commitIndex < |srv.log|
            && forall k :: 0 <= k < |srv.applyCh| ==> srv.applyCh[k] == ApplyMsg(k + 1, srv.log[k + 1].command)
  {
    RunInv(n, states, steps, a);
    CommitIndexInLog(states[a], i);
  }

  /** commitIndex never decreases within an incarnation. */
  lemma CommitNeverGoesBack(n: nat, states: seq<State>, steps: seq<Step>, k: nat, i: nat)
    requires Run(n, states, steps) && k < |steps| && i < |states[k].servers| && steps[k] != Restart(i)
    ensures i < |states[k + 1].servers|
    ensures states[k + 1].servers[i].commitIndex >= states[k].servers[i].commitIndex
  {
    hide Inv, HandleAppendEntries, HandleAppendReply, HandleRequestVote, HandleVoteReply;
    RunInv(n, states, steps, k);
    var s := states[k];
    assert Next(s, steps[k], states[k + 1]);
    match steps[k]
    case ServeAppend(rpc, room) => ServeAppendCommits(s, rpc, room);
    case TakeAppend(rpc, reply) => TakeAppendCommits(s, rpc, reply);
    case ServeVote(rpc) => VoteHandlersCommitNothing(s.servers[rpc.dst], rpc.vote);
    case TakeVote(rpc, reply) => VoteReplyCommitsNothing(s.servers[rpc.src], |s.servers|, rpc.dst, rpc.vote, reply);
    case _ =>
  }

  lemma VoteHandlersCommitNothing(srv: Server, args: VoteArgs)
    requires Contiguous(srv.log)
    ensures HandleRequestVote(srv, args).0.commitIndex == srv.commitIndex
  {
  }

  lemma VoteReplyCommitsNothing(srv: Server, peers: nat, peer: nat, args: VoteArgs, reply: VoteReply)
    requires Contiguous(srv.log)
    ensures HandleVoteReply(srv, peers, peer, args, reply).commitIndex == srv.commitIndex
  {
  }

  lemma ServeAppendCommits(s: State, rpc: Rpc, room: bool)
    requires Inv(s) && rpc.AppendRpc? && Request(rpc) in s.net && rpc.dst < |s.servers|
    requires Contiguous(s.servers[rpc.dst].log) && Servable(s.servers[rpc.dst], rpc.append)
    ensures HandleAppendEntries(s.servers[rpc.dst], rpc.append, room).0.commitIndex >= s.servers[rpc.dst].commitIndex
  {
    hide CoreInv, ServersOk, DeliveredOk, HandleAppendEntries;
    Member(s, rpc.dst);
    assert MessageOk(CoreOf(s), Request(rpc));
    var d := AppendEntriesKeeps(CoreOf(s), s.servers[rpc.dst], rpc.dst, rpc.src, rpc.append, room);
  }

  lemma TakeAppendCommits(s: State, rpc: Rpc, reply: AppendReply)
    requires Inv(s) && rpc.AppendRpc? && AppendResponse(rpc, reply) in s.net && rpc.src < |s.servers|
    requires Contiguous(s.servers[rpc.src].log)
    ensures HandleAppendReply(s.servers[rpc.src], |s.servers|, rpc.dst, rpc.append, reply).commitIndex
            >= s.servers[rpc.src].commitIndex
  {
    hide CoreInv, ServersOk, DeliveredOk, HandleAppendReply;
    Member(s, rpc.src);
    assert MessageOk(CoreOf(s), AppendResponse(rpc, reply));
    AppendReplyKeeps(CoreOf(s), s.servers[rpc.src], rpc.src, rpc.dst, rpc.append, reply);
  }

  // ----- what is sent -----

  /** Every AppendEntries in the network carries a LeaderCommit within the entries it brings the
      receiver to, so the follower's min never cuts it short. */
  lemma LeaderCommitCovered(n: nat, states: seq<State>, steps: seq<Step>, a: nat, rpc: Rpc)
    requires Run(n, states, steps) && a < |states| && rpc.AppendRpc? && Request(rpc) in states[a].net
    ensures rpc.append.leaderCommit <= rpc.append.prevLogIndex + |rpc.append.entries|
    ensures Min(rpc.append.leaderCommit, LastNewIndex(rpc.append)) == rpc.append.leaderCommit
  {
    RunInv(n, states, steps, a);
    SentInOrder(CoreOf(states[a]), rpc);
  }

  lemma SentInOrder(c: Core, rpc: Rpc)
    requires CoreInv(c) && MessageOk(c, Request(rpc)) && rpc.AppendRpc?
    ensures Min(rpc.append.leaderCommit, LastNewIndex(rpc.append)) == rpc.append.leaderCommit
    ensures rpc.append.leaderCommit <= rpc.append.prevLogIndex + |rpc.append.entries|
  {
    hide ElectionLogs, LeadersHold, NodesOk, CampaignsOk, AcksOk, BallotsOk,
         AcksHeld, BallotsHeld, ElectionVotes, LeaderAcks, ElectionLeaders, Settled, TermLogsOk;
    LastNewIs(c.h, rpc.src, rpc.append);
  }

  /** While its log is uncompacted, a leader never falls back on sending a snapshot. */
  lemma NeverNeedsSnapshot(n: nat, states: seq<State>, steps: seq<Step>, a: nat, i: nat, peer: nat)
    requires Run(n, states, steps) && a < |states| && i < |states[a].servers| && peer < |states[a].servers|
    ensures Contiguous(states[a].servers[i].log)
    ensures PrepareAppend(states[a].servers[i], i, peer) != NeedsSnapshot
  {
    hide ServersOk, NetOk, DeliveredOk;
    RunInv(n, states, steps, a);
    Member(states[a], i);
    if states[a].servers[i].role == Leader { PreparedIsSent(CoreOf(states[a]), states[a].servers[i], i, peer); }
  }

  /** Every AppendEntries in the network may be served: truncation never empties the log. */
  lemma AppendNeverPanics(n: nat, states: seq<State>, steps: seq<Step>, a: nat, rpc: Rpc)
    requires Run(n, states, steps) && a < |states| && rpc.AppendRpc? && Request(rpc) in states[a].net
    ensures rpc.dst < |states[a].servers| && Contiguous(states[a].servers[rpc.dst].log)
    ensures AppendArgsOk(states[a].servers[rpc.dst].log, rpc.append)
  {
    RunInv(n, states, steps, a);
    ServeAppendReady(states[a], rpc);
  }

  /** A step is blocked by nothing but its own occasion: every AppendEntries in the network can be
      served, whatever room the channel has, and every server can be restarted from its disk. */
  lemma NothingIsBlocked(n: nat, states: seq<State>, steps: seq<Step>, a: nat, rpc: Rpc, room: bool, i: nat)
    requires Run(n, states, steps) && a < |states| && i < |states[a].servers|
    ensures WellFormed(states[a]) && Enabled(states[a], Restart(i))
    ensures rpc.AppendRpc? && Request(rpc) in states[a].net ==> Enabled(states[a], ServeAppend(rpc, room))
  {
    hide CoreInv, NetOk, DeliveredOk;
    RunInv(n, states, steps, a);
    InvWellFormed(states[a]);
    Member(states[a], i);
    if rpc.AppendRpc? && Request(rpc) in states[a].net { ServeAppendReady(states[a], rpc); }
  }

  // ----- what the service relies on -----

  /** A command submitted after an index was committed anywhere is placed after that index, if it
      is committed at all: should any server ever hold the new entry within its committed prefix,
      the entry's index lies beyond everything that any incarnation of any server had committed
      when it was submitted. */
  lemma SubmittedAfterCommitted(n: nat, states: seq<State>, steps: seq<Step>, c: nat, a: nat, b: nat, i: nat, j: nat, l: nat)
    requires Run(n, states, steps) && a < |steps| && steps[a].Submit? && steps[a].i == i
    requires c <= a < b < |states| && i < |states[a].servers| && j < |states[c].servers| && l < |states[b].servers|
    requires states[a].servers[i].role == Leader
    requires var index := |states[a].servers[i].log|;
             states[b].servers[l].commitIndex >= index && index < |states[b].servers[l].log|
             && states[b].servers[l].log[index].term == states[a].servers[i].currentTerm
    ensures |states[a].servers[i].log| > states[c].servers[j].commitIndex
  {
    hide ServersOk, NetOk, DeliveredOk, CoreInv;
    RunInv(n, states, steps, c);
    RunInv(n, states, steps, a);
    RunInv(n, states, steps, b);
    RunAdvances(n, states, steps, c, a);
    CommittedPrefixesAgree(n, states, steps, c, b, j, l);
    var index, t := |states[a].servers[i].log|, states[a].servers[i].currentTerm;
    if states[c].servers[j].commitIndex >= index {
      CommitIndexInLog(states[c], j);
      LogInOrder(states[a], i);
      LogInOrder(states[c], j);
      LeaderHasTermLog(states[a], i);
      var x, y := CommittedPrefix(states[c].servers[j]), CommittedPrefix(states[b].servers[l]);
      assert x[index] == y[index];
      assert states[c].servers[j].log[index].term == t;
      EntryInTermLog(states[c].servers[j].log, states[c].h.termLog, index);
      assert false;
    }
  }

  lemma EntryInTermLog(log: seq<Entry>, termLog: map<nat, seq<Entry>>, k: nat)
    requires LogOk(log, termLog) && k < |log|
    ensures k > 0 ==> log[k].term in termLog && k < |termLog[log[k].term]|
  {
    if k > 0 { assert Backed(log, termLog, k); }
  }
}
