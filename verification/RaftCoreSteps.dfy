/** The six ways a step of the protocol can change a `Core`, each proved to keep its invariant. */
module RaftCoreSteps {
  import opened Commands
  import opened RaftServer
  import opened RaftCore

  // ----- what each event writes into the history -----

  function RecordCampaign(h: History, i: nat, t: nat, log: seq<Entry>): History {
    h.(campaigns := h.campaigns[Slot(i, t) := log], ballots := h.ballots[Slot(i, t) := Ballot(i, log)])
  }

  /** Voting again for the same candidate leaves the first ballot in place. */
  function RecordBallot(h: History, v: nat, t: nat, candidate: nat, log: seq<Entry>): History {
    if Slot(v, t) in h.ballots then h else h.(ballots := h.ballots[Slot(v, t) := Ballot(candidate, log)])
  }

  function RecordElection(h: History, i: nat, t: nat, voters: set<nat>, log: seq<Entry>): History
    requires log != []
  {
    if t in h.elections then h
    else h.(elections := h.elections[t := Election(i, voters, log)],
            termLog := h.termLog[t := log],
            acks := h.acks[Slot(i, t) := |log| - 1])
  }

  function RecordAppend(h: History, i: nat, t: nat, log: seq<Entry>): History
    requires log != []
  {
    h.(termLog := h.termLog[t := log], acks := h.acks[Slot(i, t) := |log| - 1])
  }

  function RecordAck(h: History, v: nat, t: nat, m: nat): History {
    var s := Slot(v, t);
    h.(acks := h.acks[s := if s in h.acks && h.acks[s] > m then h.acks[s] else m])
  }

  // ----- the transitions -----

  /** A node learns of a higher term and forgets its vote. */
  function BumpTerm(c: Core, i: nat, t: nat): Core
    requires i < |c.nodes|
  {
    c.(nodes := c.nodes[i := c.nodes[i].(term := t, vote := -1)])
  }

  /** A node starts an election and votes for itself. */
  function Campaign(c: Core, i: nat): Core
    requires i < |c.nodes|
  {
    var n := c.nodes[i].(term := c.nodes[i].term + 1, vote := i);
    Core(c.nodes[i := n], RecordCampaign(c.h, i, n.term, n.log))
  }

  /** A node votes. */
  function Grant(c: Core, v: nat, candidate: nat): Core
    requires v < |c.nodes|
  {
    var n := c.nodes[v].(vote := candidate);
    Core(c.nodes[v := n], RecordBallot(c.h, v, n.term, candidate, n.log))
  }

  /** A tally passes the majority test. */
  function Elect(c: Core, i: nat, voters: set<nat>): Core
    requires i < |c.nodes| && c.nodes[i].log != []
  {
    c.(h := RecordElection(c.h, i, c.nodes[i].term, voters, c.nodes[i].log))
  }

  /** A leader appends a command to its log. */
  function Extend(c: Core, i: nat, command: Command): Core
    requires i < |c.nodes|
  {
    var n := c.nodes[i];
    var longer := n.log + [Entry(n.term, |n.log|, command)];
    Core(c.nodes[i := n.(log := longer)], RecordAppend(c.h, i, n.term, longer))
  }

  /** The log after accepting the leader's entries up to m: unchanged if it agrees that far. */
  function Merged(log: seq<Entry>, leader: seq<Entry>, m: nat): seq<Entry>
    requires m < |leader|
  {
    if m < |log| && log[m].term == leader[m].term then log else leader[..m + 1]
  }

  /** A follower accepts its leader's entries up to m. */
  function Accept(c: Core, v: nat, m: nat): Core
    requires v < |c.nodes| && c.nodes[v].term in c.h.termLog && m < |c.h.termLog[c.nodes[v].term]|
  {
    var n := c.nodes[v];
    Core(c.nodes[v := n.(log := Merged(n.log, c.h.termLog[n.term], m))], RecordAck(c.h, v, n.term, m))
  }

  // ----- votes: logs, term logs and acknowledgements stay as they are -----

  ghost predicate OnlyVotes(c: Core, d: Core) {
    |c.nodes| == |d.nodes|
    && d.h.termLog == c.h.termLog && d.h.elections == c.h.elections && d.h.acks == c.h.acks
    && (forall i :: 0 <= i < |c.nodes| ==> d.nodes[i].log == c.nodes[i].log && c.nodes[i].term <= d.nodes[i].term)
    && (forall s :: s in c.h.ballots ==> s in d.h.ballots && d.h.ballots[s] == c.h.ballots[s])
    && (forall s :: s in d.h.ballots && s !in c.h.ballots ==>
          s.node < |c.nodes| && d.h.ballots[s].log == c.nodes[s.node].log)
    && (forall s :: s in c.h.campaigns ==> s in d.h.campaigns && d.h.campaigns[s] == c.h.campaigns[s])
  }

  lemma VotesShrinkChoosable(c: Core, d: Core, t: nat, k: nat)
    requires OnlyVotes(c, d)
    ensures Choosable(d, t, k) ==> Choosable(c, t, k)
  {
    ChoosableShrinks(c, d, t, k);
  }

  lemma VotesKeepHeld(c: Core, d: Core)
    requires OnlyVotes(c, d) && AcksHeld(c) && BallotsHeld(c) && LeadersHold(c)
    ensures AcksHeld(d) && BallotsHeld(d) && LeadersHold(d)
  {
    forall v: nat, t: nat, k: nat | v < |d.nodes| && Acked(d.h, v, t, k) && Own(d.h, t, k) && Choosable(d, t, k)
      ensures Has(d.nodes[v].log, t, k)
    {
      VotesShrinkChoosable(c, d, t, k);
      assert Acked(c.h, v, t, k) && Own(c.h, t, k);
    }
    forall s: Slot, t: nat, k: nat | s in d.h.ballots && t < s.term && Acked(d.h, s.node, t, k)
                                     && Own(d.h, t, k) && Choosable(d, t, k)
      ensures Has(d.h.ballots[s].log, t, k)
    {
      VotesShrinkChoosable(c, d, t, k);
      assert Acked(c.h, s.node, t, k) && Own(c.h, t, k);
    }
    forall u: nat, t: nat, k: nat | u in d.h.elections && t < u && Own(d.h, t, k) && Choosable(d, t, k)
      ensures Has(d.h.elections[u].log, t, k)
    {
      VotesShrinkChoosable(c, d, t, k);
      assert Own(c.h, t, k);
    }
  }

  lemma VotesKeepRest(c: Core, d: Core)
    requires OnlyVotes(c, d) && LeaderAcks(c.h)
    requires TermLogsOk(c.h) && ElectionVotes(c) && ElectionLeaders(c) && ElectionLogs(c.h) && AcksOk(c)
    ensures TermLogsOk(d.h) && ElectionVotes(d) && ElectionLeaders(d) && ElectionLogs(d.h) && AcksOk(d)
            && LeaderAcks(d.h)
  {
    forall t | t in d.h.elections
      ensures VotedFor(d.h, d.h.elections[t].voters, t, d.h.elections[t].leader)
    {
      assert VotedFor(c.h, c.h.elections[t].voters, t, c.h.elections[t].leader);
    }
    VotesKeepLeaderAcks(c, d);
  }

  lemma VotesKeepLeaderAcks(c: Core, d: Core)
    requires OnlyVotes(c, d) && LeaderAcks(c.h)
    ensures LeaderAcks(d.h)
  {
    forall t | t in d.h.elections
      ensures Acked(d.h, d.h.elections[t].leader, t, |d.h.termLog[t]| - 1)
    {
      assert Acked(c.h, c.h.elections[t].leader, t, |c.h.termLog[t]| - 1);
    }
  }

  /** A node whose term and vote did not change stays in order. */
  lemma VotesKeepOthers(c: Core, d: Core, i: nat)
    requires OnlyVotes(c, d) && i < |c.nodes| && NodeOk(c.nodes[i], i, c.h)
    requires d.nodes[i] == c.nodes[i]
    ensures NodeOk(d.nodes[i], i, d.h)
  {
  }

  lemma VotesKeepCampaign(c: Core, d: Core, s: Slot)
    requires OnlyVotes(c, d) && CampaignOk(c, s)
    ensures CampaignOk(d, s)
  {
  }

  lemma VotesKeepBallot(c: Core, d: Core, s: Slot)
    requires OnlyVotes(c, d) && BallotOk(c, s)
    requires d.nodes[s.node].term > s.term || d.nodes[s.node].vote == c.nodes[s.node].vote
    ensures BallotOk(d, s)
  {
  }

  /** If only node i changed, and i and all new records are in order, then everything is. */
  lemma VotesKeepRecords(c: Core, d: Core, i: nat)
    requires NodesOk(c) && CampaignsOk(c) && BallotsOk(c) && OnlyVotes(c, d)
    requires i < |c.nodes| && forall j :: 0 <= j < |c.nodes| && j != i ==> d.nodes[j] == c.nodes[j]
    requires NodeOk(d.nodes[i], i, d.h)
    requires d.nodes[i].term > c.nodes[i].term || d.nodes[i].vote == c.nodes[i].vote
             || Slot(i, c.nodes[i].term) !in c.h.ballots
    requires forall s :: s in d.h.campaigns && s !in c.h.campaigns ==> CampaignOk(d, s)
    requires forall s :: s in d.h.ballots && s !in c.h.ballots ==> BallotOk(d, s)
    ensures NodesOk(d) && CampaignsOk(d) && BallotsOk(d)
  {
    forall j | 0 <= j < |d.nodes|
      ensures NodeOk(d.nodes[j], j, d.h)
    {
      if j != i { VotesKeepOthers(c, d, j); }
    }
    forall s | s in d.h.campaigns
      ensures CampaignOk(d, s)
    {
      if s in c.h.campaigns { VotesKeepCampaign(c, d, s); }
    }
    forall s | s in d.h.ballots
      ensures BallotOk(d, s)
    {
      if s in c.h.ballots {
        assert BallotOk(c, s);
        assert s.node != i || s.term == c.nodes[i].term ==> s == Slot(i, c.nodes[i].term) || s.node != i;
        VotesKeepBallot(c, d, s);
      }
    }
  }

  /** Everything the invariant says, from the parts a voting step can touch. */
  lemma VotesKeepInv(c: Core, d: Core)
    requires CoreInv(c) && OnlyVotes(c, d) && NodesOk(d) && CampaignsOk(d) && BallotsOk(d)
    ensures CoreInv(d)
  {
    VotesKeepHeld(c, d);
    VotesKeepRest(c, d);
  }

  lemma BumpTermKeeps(c: Core, i: nat, t: nat)
    requires CoreInv(c) && i < |c.nodes| && t > c.nodes[i].term
    ensures CoreInv(BumpTerm(c, i, t))
  {
    var d := BumpTerm(c, i, t);
    assert NodeOk(c.nodes[i], i, c.h);
    VotesKeepRecords(c, d, i);
    VotesKeepInv(c, d);
  }

  lemma CampaignKeeps(c: Core, i: nat)
    requires CoreInv(c) && i < |c.nodes|
    ensures CoreInv(Campaign(c, i))
  {
    var d, s := Campaign(c, i), Slot(i, c.nodes[i].term + 1);
    assert NodeOk(c.nodes[i], i, c.h);
    NoFutureRecords(c, s);
    assert CampaignOk(d, s) && BallotOk(d, s);
    VotesKeepRecords(c, d, i);
    VotesKeepInv(c, d);
  }

  lemma NoFutureRecords(c: Core, s: Slot)
    requires CampaignsOk(c) && BallotsOk(c) && s.node < |c.nodes| && s.term > c.nodes[s.node].term
    ensures s !in c.h.campaigns && s !in c.h.ballots
  {
  }

  ghost predicate MayGrant(c: Core, v: nat, candidate: nat) {
    v < |c.nodes| && (c.nodes[v].vote == -1 || c.nodes[v].vote == candidate)
    && var request := Slot(candidate, c.nodes[v].term);
       request in c.h.campaigns && |c.h.campaigns[request]| > 0 && c.nodes[v].log != []
       && Fresher(c.h.campaigns[request], c.nodes[v].log)
  }

  lemma RegrantIsNoop(c: Core, v: nat, candidate: nat)
    requires BallotsOk(c) && MayGrant(c, v, candidate) && Slot(v, c.nodes[v].term) in c.h.ballots
    ensures Grant(c, v, candidate) == c && c.h.ballots[Slot(v, c.nodes[v].term)].candidate == candidate
  {
    assert BallotOk(c, Slot(v, c.nodes[v].term));
    assert c.nodes[v].vote == candidate;
    assert Grant(c, v, candidate).nodes == c.nodes;
  }

  lemma NewBallotOk(c: Core, v: nat, candidate: nat)
    requires MayGrant(c, v, candidate) && Slot(v, c.nodes[v].term) !in c.h.ballots
    requires NodeOk(c.nodes[v], v, c.h)
    ensures var d := Grant(c, v, candidate);
            OnlyVotes(c, d) && NodeOk(d.nodes[v], v, d.h) && BallotOk(d, Slot(v, c.nodes[v].term))
  {
  }

  lemma GrantKeeps(c: Core, v: nat, candidate: nat)
    requires CoreInv(c) && MayGrant(c, v, candidate)
    ensures CoreInv(Grant(c, v, candidate))
    ensures VotedFor(Grant(c, v, candidate).h, {v}, c.nodes[v].term, candidate)
  {
    hide TermLogsOk, CampaignsOk, BallotsOk, ElectionVotes, ElectionLeaders, ElectionLogs, AcksOk, LeaderAcks,
         AcksHeld, BallotsHeld, LeadersHold;
    if Slot(v, c.nodes[v].term) in c.h.ballots {
      RegrantIsNoop(c, v, candidate);
    } else {
      var d := Grant(c, v, candidate);
      NewBallotOk(c, v, candidate);
      VotesKeepRecords(c, d, v);
      VotesKeepInv(c, d);
    }
  }

  // ----- elections, appends and acknowledgements: terms and votes stay as they are -----

  ghost predicate OnlyLogs(c: Core, d: Core, i: nat) {
    |c.nodes| == |d.nodes| && i < |c.nodes|
    && (forall j :: 0 <= j < |c.nodes| && j != i ==> d.nodes[j] == c.nodes[j])
    && d.nodes[i].term == c.nodes[i].term && d.nodes[i].vote == c.nodes[i].vote
    && d.h.campaigns == c.h.campaigns && d.h.ballots == c.h.ballots
    && Grown(c.h.termLog, d.h.termLog)
    && (forall t :: t in c.h.elections ==> t in d.h.elections && d.h.elections[t] == c.h.elections[t])
    && (forall s :: s in c.h.acks ==> s in d.h.acks && c.h.acks[s] <= d.h.acks[s])
    && (d.nodes[i].log == c.nodes[i].log || c.nodes[i].term in d.h.elections)
  }

  lemma LogsKeepRecords(c: Core, d: Core, i: nat)
    requires NodesOk(c) && CampaignsOk(c) && BallotsOk(c) && OnlyLogs(c, d, i)
    requires LogOk(d.nodes[i].log, d.h.termLog) && LastTerm(d.nodes[i].log) <= d.nodes[i].term
    ensures NodesOk(d) && CampaignsOk(d) && BallotsOk(d)
  {
    forall j | 0 <= j < |d.nodes|
      ensures NodeOk(d.nodes[j], j, d.h)
    {
      assert NodeOk(c.nodes[j], j, c.h);
      if j != i { LogOkGrows(c.nodes[j].log, c.h.termLog, d.h.termLog); }
    }
    forall s | s in d.h.campaigns
      ensures CampaignOk(d, s)
    {
      assert CampaignOk(c, s);
      LogOkGrows(c.h.campaigns[s], c.h.termLog, d.h.termLog);
    }
    forall s | s in d.h.ballots
      ensures BallotOk(d, s)
    {
      assert BallotOk(c, s);
      LogOkGrows(c.h.ballots[s].log, c.h.termLog, d.h.termLog);
    }
  }

  /** The log a candidate is elected with is the one it campaigned with. */
  lemma ElectedLog(c: Core, i: nat, voters: set<nat>)
    requires NodesOk(c) && CampaignsOk(c) && BallotsOk(c) && i < |c.nodes|
    requires c.nodes[i].term !in c.h.elections
    requires Quorum(|c.nodes|, voters) && VotedFor(c.h, voters, c.nodes[i].term, i)
    ensures var n := c.nodes[i];
            Slot(i, n.term) in c.h.campaigns && c.h.campaigns[Slot(i, n.term)] == n.log
            && LogOk(n.log, c.h.termLog) && LastTerm(n.log) < n.term
  {
    assert voters != {};
    var v :| v in voters;
    assert BallotOk(c, Slot(v, c.nodes[i].term));
    assert CampaignOk(c, Slot(i, c.nodes[i].term));
  }

  lemma ElectKeepsLogs(c: Core, i: nat, voters: set<nat>)
    requires TermLogsOk(c.h) && ElectionLogs(c.h) && i < |c.nodes|
    requires c.nodes[i].term !in c.h.elections
    requires LogOk(c.nodes[i].log, c.h.termLog) && LastTerm(c.nodes[i].log) < c.nodes[i].term
    ensures var d := Elect(c, i, voters);
            TermLogsOk(d.h) && ElectionLogs(d.h) && Grown(c.h.termLog, d.h.termLog)
  {
    var d, t := Elect(c, i, voters), c.nodes[i].term;
    assert t !in c.h.termLog;
    forall u | u in d.h.termLog
      ensures LogOk(d.h.termLog[u], d.h.termLog)
    {
      LogOkGrows(if u == t then c.nodes[i].log else c.h.termLog[u], c.h.termLog, d.h.termLog);
    }
  }

  lemma ElectKeepsVotes(c: Core, i: nat, voters: set<nat>)
    requires ElectionVotes(c) && i < |c.nodes| && c.nodes[i].log != []
    requires Quorum(|c.nodes|, voters) && VotedFor(c.h, voters, c.nodes[i].term, i)
    ensures ElectionVotes(Elect(c, i, voters))
  {
    var d := Elect(c, i, voters);
    forall t | t in d.h.elections
      ensures Quorum(|d.nodes|, d.h.elections[t].voters)
      ensures VotedFor(d.h, d.h.elections[t].voters, t, d.h.elections[t].leader)
    {
      assert d.h.ballots == c.h.ballots;
      if t in c.h.elections { assert VotedFor(c.h, c.h.elections[t].voters, t, c.h.elections[t].leader); }
    }
  }

  lemma ElectKeepsLeaders(c: Core, i: nat, voters: set<nat>)
    requires ElectionLeaders(c) && AcksOk(c) && TermLogsOk(c.h) && i < |c.nodes|
    requires c.nodes[i].term !in c.h.elections && c.nodes[i].log != []
    ensures var d := Elect(c, i, voters); ElectionLeaders(d) && AcksOk(d)
  {
    hide ElectionLeaders, AcksOk;
    assert c.nodes[i].term !in c.h.termLog;
    ElectKeepsLeadersOnly(c, i, voters);
    ElectKeepsAcks(c, i, voters);
  }

  lemma ElectKeepsLeadersOnly(c: Core, i: nat, voters: set<nat>)
    requires ElectionLeaders(c) && i < |c.nodes| && c.nodes[i].term !in c.h.elections && c.nodes[i].log != []
    ensures ElectionLeaders(Elect(c, i, voters))
  {
  }

  lemma ElectKeepsAcks(c: Core, i: nat, voters: set<nat>)
    requires AcksOk(c) && i < |c.nodes| && c.nodes[i].term !in c.h.termLog && c.nodes[i].log != []
    ensures AcksOk(Elect(c, i, voters))
  {
  }

  lemma ElectKeepsLeaderAcks(c: Core, i: nat, voters: set<nat>)
    requires LeaderAcks(c.h) && i < |c.nodes| && c.nodes[i].log != []
    ensures LeaderAcks(Elect(c, i, voters).h)
  {
    var h := Elect(c, i, voters).h;
    forall t | t in h.elections
      ensures h.termLog[t] != [] && Acked(h, h.elections[t].leader, t, |h.termLog[t]| - 1)
    {
      if t in c.h.elections { assert Acked(c.h, c.h.elections[t].leader, t, |c.h.termLog[t]| - 1); }
    }
  }

  /** A new leader has not yet written an entry of its own. */
  lemma ElectOwn(c: Core, i: nat, voters: set<nat>, t: nat, k: nat)
    requires i < |c.nodes| && c.nodes[i].term !in c.h.elections
    requires LogOk(c.nodes[i].log, c.h.termLog) && LastTerm(c.nodes[i].log) < c.nodes[i].term
    requires Own(Elect(c, i, voters).h, t, k)
    ensures t != c.nodes[i].term && Own(c.h, t, k)
    ensures Choosable(Elect(c, i, voters), t, k) ==> Choosable(c, t, k)
    ensures forall v: nat :: Acked(Elect(c, i, voters).h, v, t, k) ==> Acked(c.h, v, t, k)
  {
    var log := c.nodes[i].log;
    if k < |log| { assert Ordered(log, k, |log| - 1); }
    ChoosableShrinks(c, Elect(c, i, voters), t, k);
  }

  /** Leader Completeness at the moment of election. */
  lemma WinnerHas(c: Core, i: nat, voters: set<nat>, t: nat, k: nat)
    requires BallotsOk(c) && BallotsHeld(c) && TermLogsOk(c.h) && ElectionLogs(c.h) && LeadersHold(c)
    requires i < |c.nodes| && LogOk(c.nodes[i].log, c.h.termLog)
    requires Slot(i, c.nodes[i].term) in c.h.campaigns && c.h.campaigns[Slot(i, c.nodes[i].term)] == c.nodes[i].log
    requires Quorum(|c.nodes|, voters) && VotedFor(c.h, voters, c.nodes[i].term, i)
    requires t < c.nodes[i].term && Own(c.h, t, k) && Choosable(c, t, k)
    ensures Has(c.nodes[i].log, t, k)
  {
    var q :| Quorum(|c.nodes|, q) && AllMayAck(c, q, t, k);
    var v := QuorumsMeet(|c.nodes|, q, voters);
    var s := Slot(v, c.nodes[i].term);
    assert BallotOk(c, s);
    assert MayAck(c, v, t, k);
    assert Has(c.h.ballots[s].log, t, k);
    FresherLogHas(c, c.nodes[i].log, c.h.ballots[s].log, t, k);
  }

  ghost predicate Wins(c: Core, i: nat, voters: set<nat>) {
    i < |c.nodes| && c.nodes[i].term !in c.h.elections
    && Quorum(|c.nodes|, voters) && VotedFor(c.h, voters, c.nodes[i].term, i)
    && var n := c.nodes[i];
       Slot(i, n.term) in c.h.campaigns && c.h.campaigns[Slot(i, n.term)] == n.log
       && LogOk(n.log, c.h.termLog) && LastTerm(n.log) < n.term
  }

  lemma ElectKeepsAcksHeld(c: Core, i: nat, voters: set<nat>)
    requires AcksHeld(c) && Wins(c, i, voters)
    ensures AcksHeld(Elect(c, i, voters))
  {
    var d := Elect(c, i, voters);
    forall v: nat, t: nat, k: nat | v < |d.nodes| && Acked(d.h, v, t, k) && Own(d.h, t, k) && Choosable(d, t, k)
      ensures Has(d.nodes[v].log, t, k)
    {
      ElectOwn(c, i, voters, t, k);
    }
  }

  lemma ElectKeepsBallotsHeld(c: Core, i: nat, voters: set<nat>)
    requires BallotsHeld(c) && Wins(c, i, voters)
    ensures BallotsHeld(Elect(c, i, voters))
  {
    var d := Elect(c, i, voters);
    forall s: Slot, t: nat, k: nat | s in d.h.ballots && t < s.term && Acked(d.h, s.node, t, k)
                                     && Own(d.h, t, k) && Choosable(d, t, k)
      ensures Has(d.h.ballots[s].log, t, k)
    {
      ElectOwn(c, i, voters, t, k);
    }
  }

  lemma ElectKeepsLeadersHold(c: Core, i: nat, voters: set<nat>)
    requires BallotsOk(c) && BallotsHeld(c) && TermLogsOk(c.h) && ElectionLogs(c.h) && LeadersHold(c)
    requires Wins(c, i, voters)
    ensures LeadersHold(Elect(c, i, voters))
  {
    var d := Elect(c, i, voters);
    forall u: nat, t: nat, k: nat | u in d.h.elections && t < u && Own(d.h, t, k) && Choosable(d, t, k)
      ensures Has(d.h.elections[u].log, t, k)
    {
      ElectOwn(c, i, voters, t, k);
      if u == c.nodes[i].term { WinnerHas(c, i, voters, t, k); }
    }
  }

  lemma ElectKeeps(c: Core, i: nat, voters: set<nat>)
    requires CoreInv(c) && i < |c.nodes|
    requires Quorum(|c.nodes|, voters) && VotedFor(c.h, voters, c.nodes[i].term, i)
    ensures c.nodes[i].log != [] && CoreInv(Elect(c, i, voters))
    ensures c.nodes[i].term in Elect(c, i, voters).h.elections
    ensures Elect(c, i, voters).h.elections[c.nodes[i].term].leader == i
  {
    var t := c.nodes[i].term;
    assert NodeOk(c.nodes[i], i, c.h);
    if t in c.h.elections {
      OneLeader(c, t, i, c.h.elections[t].leader, voters, c.h.elections[t].voters);
    } else {
      ElectedLog(c, i, voters);
      ElectKeepsLogs(c, i, voters);
      ElectKeepsVotes(c, i, voters);
      ElectKeepsLeaders(c, i, voters);
      ElectKeepsLeaderAcks(c, i, voters);
      ElectKeepsAcksHeld(c, i, voters);
      ElectKeepsBallotsHeld(c, i, voters);
      ElectKeepsLeadersHold(c, i, voters);
      ElectOnlyLogs(c, i, voters);
      LogsKeepRecords(c, Elect(c, i, voters), i);
    }
  }

  lemma ElectOnlyLogs(c: Core, i: nat, voters: set<nat>)
    requires TermLogsOk(c.h) && AcksOk(c) && i < |c.nodes| && c.nodes[i].term !in c.h.elections
    requires LogOk(c.nodes[i].log, c.h.termLog)
    ensures var d := Elect(c, i, voters); OnlyLogs(c, d, i) && LogOk(d.nodes[i].log, d.h.termLog)
  {
    assert c.nodes[i].term !in c.h.termLog;
    LogOkGrows(c.nodes[i].log, c.h.termLog, Elect(c, i, voters).h.termLog);
  }

  ghost predicate Leads(c: Core, i: nat) {
    i < |c.nodes| && c.nodes[i].term in c.h.elections && c.h.elections[c.nodes[i].term].leader == i
  }

  lemma ExtendLogOk(log: seq<Entry>, a: map<nat, seq<Entry>>, t: nat, command: Command)
    requires LogOk(log, a) && t > 0 && LastTerm(log) <= t && t in a && a[t] == log
    ensures var longer := log + [Entry(t, |log|, command)]; var b := a[t := longer];
            Grown(a, b) && LogOk(longer, b) && LastTerm(longer) == t
  {
    var longer := log + [Entry(t, |log|, command)];
    var b := a[t := longer];
    LogOkGrows(log, a, b);
    forall k | 1 <= k < |longer|
      ensures Backed(longer, b, k)
    {
      if k < |log| {
        assert Backed(log, b, k);
        assert longer[..k + 1] == log[..k + 1];
      }
    }
    forall j: nat, k: nat | j <= k < |longer|
      ensures Ordered(longer, j, k)
    {
      if j < |log| {
        assert Ordered(log, j, |log| - 1);
        if k < |log| { assert Ordered(log, j, k); }
      }
    }
  }

  lemma ExtendKeepsTermLogs(c: Core, i: nat, command: Command)
    requires TermLogsOk(c.h) && Leads(c, i) && c.nodes[i].term in c.h.termLog
    requires c.h.termLog[c.nodes[i].term] == c.nodes[i].log
    ensures var d := Extend(c, i, command);
            TermLogsOk(d.h) && Grown(c.h.termLog, d.h.termLog)
            && LogOk(d.nodes[i].log, d.h.termLog) && LastTerm(d.nodes[i].log) <= d.nodes[i].term
  {
    var d, t, log := Extend(c, i, command), c.nodes[i].term, c.nodes[i].log;
    ExtendLogOk(log, c.h.termLog, t, command);
    forall u | u in d.h.termLog
      ensures LogOk(d.h.termLog[u], d.h.termLog)
    {
      if u != t { LogOkGrows(c.h.termLog[u], c.h.termLog, d.h.termLog); }
    }
  }

  lemma ExtendKeepsElectionLogs(c: Core, i: nat, command: Command)
    requires ElectionLogs(c.h) && Leads(c, i) && c.h.termLog[c.nodes[i].term] == c.nodes[i].log
    ensures ElectionLogs(Extend(c, i, command).h)
  {
  }

  lemma ExtendOnlyLogs(c: Core, i: nat, command: Command)
    requires AcksOk(c) && Leads(c, i) && c.nodes[i].term in c.h.termLog
    requires c.h.termLog[c.nodes[i].term] == c.nodes[i].log
    ensures OnlyLogs(c, Extend(c, i, command), i)
  {
  }

  lemma ExtendKeepsVotes(c: Core, i: nat, command: Command)
    requires ElectionVotes(c) && ElectionLeaders(c) && AcksOk(c) && Leads(c, i)
    ensures var d := Extend(c, i, command); ElectionVotes(d) && ElectionLeaders(d) && AcksOk(d)
  {
    var d := Extend(c, i, command);
    forall t | t in d.h.elections
      ensures VotedFor(d.h, d.h.elections[t].voters, t, d.h.elections[t].leader)
    {
      assert VotedFor(c.h, c.h.elections[t].voters, t, c.h.elections[t].leader);
    }
  }

  lemma ExtendKeepsLeaderAcks(c: Core, i: nat, command: Command)
    requires LeaderAcks(c.h) && Leads(c, i)
    ensures LeaderAcks(Extend(c, i, command).h)
  {
    var h := Extend(c, i, command).h;
    forall t | t in h.elections
      ensures h.termLog[t] != [] && Acked(h, h.elections[t].leader, t, |h.termLog[t]| - 1)
    {
      if t != c.nodes[i].term { assert Acked(c.h, c.h.elections[t].leader, t, |c.h.termLog[t]| - 1); }
    }
  }

  /** Only the leader itself has acknowledged its new entry. */
  lemma ExtendAcks(c: Core, i: nat, command: Command, v: nat, t: nat, k: nat)
    requires ElectionLeaders(c) && AcksOk(c) && Leads(c, i) && Acked(Extend(c, i, command).h, v, t, k)
    requires Own(Extend(c, i, command).h, t, k)
    ensures (v == i && t == c.nodes[i].term) || (Acked(c.h, v, t, k) && Own(c.h, t, k))
  {
  }

  lemma ExtendChoosable(c: Core, i: nat, command: Command, t: nat, k: nat)
    requires ElectionLeaders(c) && Leads(c, i)
    ensures Choosable(Extend(c, i, command), t, k) ==> Choosable(c, t, k)
  {
    ChoosableShrinks(c, Extend(c, i, command), t, k);
  }

  lemma VoterMovedOn(c: Core, i: nat, command: Command, v: nat, u: nat)
    requires ElectionLeaders(c) && AcksOk(c) && BallotsOk(c) && Leads(c, i)
    requires Slot(v, u) in c.h.ballots && c.nodes[i].term < u
    ensures v < |c.nodes| && !MayAck(Extend(c, i, command), v, c.nodes[i].term, |c.nodes[i].log|)
  {
    assert BallotOk(c, Slot(v, u));
  }

  /** A later leader's voters have all left the term, so they will never acknowledge the new entry. */
  lemma NewEntryNotChoosable(c: Core, i: nat, command: Command, u: nat)
    requires ElectionVotes(c) && ElectionLeaders(c) && AcksOk(c) && BallotsOk(c) && Leads(c, i)
    requires u in c.h.elections && c.nodes[i].term < u
    ensures !Choosable(Extend(c, i, command), c.nodes[i].term, |c.nodes[i].log|)
  {
    var d, voters := Extend(c, i, command), c.h.elections[u].voters;
    assert VotedFor(c.h, voters, u, c.h.elections[u].leader);
    forall v: nat | v in voters
      ensures v < |d.nodes| && !MayAck(d, v, c.nodes[i].term, |c.nodes[i].log|)
    {
      VoterMovedOn(c, i, command, v, u);
    }
    NotChoosable(d, c.nodes[i].term, |c.nodes[i].log|, voters);
  }

  lemma ExtendKeepsAcksHeld(c: Core, i: nat, command: Command)
    requires ElectionLeaders(c) && AcksOk(c) && AcksHeld(c) && Leads(c, i)
    ensures AcksHeld(Extend(c, i, command))
  {
    var d := Extend(c, i, command);
    forall v: nat, t: nat, k: nat | v < |d.nodes| && Acked(d.h, v, t, k) && Own(d.h, t, k) && Choosable(d, t, k)
      ensures Has(d.nodes[v].log, t, k)
    {
      ExtendAcks(c, i, command, v, t, k);
      ExtendChoosable(c, i, command, t, k);
      if Acked(c.h, v, t, k) && Own(c.h, t, k) { assert Has(c.nodes[v].log, t, k); }
    }
  }

  lemma ExtendKeepsBallotsHeld(c: Core, i: nat, command: Command)
    requires ElectionLeaders(c) && AcksOk(c) && BallotsOk(c) && BallotsHeld(c) && Leads(c, i)
    ensures BallotsHeld(Extend(c, i, command))
  {
    var d := Extend(c, i, command);
    forall s: Slot, t: nat, k: nat | s in d.h.ballots && t < s.term && Acked(d.h, s.node, t, k)
                                     && Own(d.h, t, k) && Choosable(d, t, k)
      ensures Has(d.h.ballots[s].log, t, k)
    {
      assert BallotOk(c, s);
      ExtendAcks(c, i, command, s.node, t, k);
      ExtendChoosable(c, i, command, t, k);
    }
  }

  lemma ExtendKeepsLeadersHold(c: Core, i: nat, command: Command)
    requires ElectionVotes(c) && ElectionLeaders(c) && AcksOk(c) && BallotsOk(c) && LeadersHold(c) && Leads(c, i)
    ensures LeadersHold(Extend(c, i, command))
  {
    var d := Extend(c, i, command);
    forall u: nat, t: nat, k: nat | u in d.h.elections && t < u && Own(d.h, t, k) && Choosable(d, t, k)
      ensures Has(d.h.elections[u].log, t, k)
    {
      ExtendChoosable(c, i, command, t, k);
      if !Own(c.h, t, k) { NewEntryNotChoosable(c, i, command, u); }
    }
  }

  lemma ExtendKeeps(c: Core, i: nat, command: Command)
    requires CoreInv(c) && Leads(c, i)
    ensures CoreInv(Extend(c, i, command))
  {
    ExtendKeepsTermLogs(c, i, command);
    ExtendKeepsElectionLogs(c, i, command);
    ExtendOnlyLogs(c, i, command);
    ExtendKeepsVotes(c, i, command);
    ExtendKeepsLeaderAcks(c, i, command);
    LogsKeepRecords(c, Extend(c, i, command), i);
    ExtendKeepsAcksHeld(c, i, command);
    ExtendKeepsBallotsHeld(c, i, command);
    ExtendKeepsLeadersHold(c, i, command);
  }

  // ----- accepting a leader's entries -----

  ghost predicate MayAccept(c: Core, v: nat, m: nat) {
    v < |c.nodes| && c.nodes[v].term in c.h.termLog && m < |c.h.termLog[c.nodes[v].term]|
  }

  /** The merged log agrees with the leader's up to m, and either is the old log or stops at m. */
  lemma MergedAgrees(log: seq<Entry>, leader: seq<Entry>, m: nat, termLog: map<nat, seq<Entry>>)
    requires LogOk(log, termLog) && LogOk(leader, termLog) && m < |leader|
    ensures var r := Merged(log, leader, m); m < |r| && r[..m + 1] == leader[..m + 1] && LogOk(r, termLog)
  {
    if m < |log| && log[m].term == leader[m].term {
      LogMatching(log, leader, termLog, m);
    } else {
      PrefixLogOk(leader, termLog, m + 1);
      assert leader[..m + 1][..m + 1] == leader[..m + 1];
    }
  }

  /** Merging never loses an entry that the leader of the same or a later term also has. */
  lemma MergedKeeps(log: seq<Entry>, leader: seq<Entry>, m: nat, k: nat)
    requires m < |leader| && k < |log| && k < |leader| && log[..k + 1] == leader[..k + 1]
    ensures var r := Merged(log, leader, m); k < |r| && r[..k + 1] == log[..k + 1]
  {
    if m <= k {
      assert log[m] == log[..k + 1][m] == leader[..k + 1][m] == leader[m];
    } else {
      assert leader[..m + 1][..k + 1] == leader[..k + 1];
    }
  }

  lemma AcceptOnlyLogs(c: Core, v: nat, m: nat)
    requires TermLogsOk(c.h) && AcksOk(c) && MayAccept(c, v, m)
    ensures var d := Accept(c, v, m); OnlyLogs(c, d, v) && AcksOk(d)
  {
  }

  lemma AcceptSameLogs(c: Core, v: nat, m: nat)
    requires TermLogsOk(c.h) && ElectionLogs(c.h) && LeaderAcks(c.h) && MayAccept(c, v, m)
    ensures var h := Accept(c, v, m).h; TermLogsOk(h) && ElectionLogs(h) && LeaderAcks(h)
  {
    var h := Accept(c, v, m).h;
    forall t | t in h.elections
      ensures Acked(h, h.elections[t].leader, t, |h.termLog[t]| - 1)
    {
      assert Acked(c.h, c.h.elections[t].leader, t, |c.h.termLog[t]| - 1);
    }
  }

  lemma AcceptedLogOk(c: Core, v: nat, m: nat)
    requires MayAccept(c, v, m) && NodeOk(c.nodes[v], v, c.h)
    requires var leader := c.h.termLog[c.nodes[v].term];
             LogOk(leader, c.h.termLog) && LastTerm(leader) <= c.nodes[v].term
    ensures var n := Accept(c, v, m).nodes[v]; LogOk(n.log, c.h.termLog) && LastTerm(n.log) <= n.term
  {
    var leader := c.h.termLog[c.nodes[v].term];
    MergedAgrees(c.nodes[v].log, leader, m, c.h.termLog);
    assert Ordered(leader, m, |leader| - 1);
  }

  lemma AcceptKeepsVotes(c: Core, v: nat, m: nat)
    requires ElectionVotes(c) && ElectionLeaders(c) && MayAccept(c, v, m)
    ensures var d := Accept(c, v, m); ElectionVotes(d) && ElectionLeaders(d)
  {
    var d := Accept(c, v, m);
    forall t | t in d.h.elections
      ensures VotedFor(d.h, d.h.elections[t].voters, t, d.h.elections[t].leader)
    {
      assert VotedFor(c.h, c.h.elections[t].voters, t, c.h.elections[t].leader);
    }
  }

  lemma AcceptChoosable(c: Core, v: nat, m: nat, t: nat, k: nat)
    requires MayAccept(c, v, m)
    ensures Choosable(Accept(c, v, m), t, k) ==> Choosable(c, t, k)
  {
    ChoosableShrinks(c, Accept(c, v, m), t, k);
  }

  /** The accepting node itself keeps everything it acknowledged that could still be committed. */
  lemma AcceptorHolds(c: Core, v: nat, m: nat, t: nat, k: nat)
    requires NodesOk(c) && TermLogsOk(c.h) && ElectionLogs(c.h) && LeadersHold(c) && AcksHeld(c) && AcksOk(c)
    requires MayAccept(c, v, m) && Own(c.h, t, k) && Choosable(c, t, k)
    requires Acked(Accept(c, v, m).h, v, t, k)
    ensures Has(Accept(c, v, m).nodes[v].log, t, k)
  {
    var log, T := c.nodes[v].log, c.nodes[v].term;
    var leader := c.h.termLog[T];
    assert NodeOk(c.nodes[v], v, c.h);
    MergedAgrees(log, leader, m, c.h.termLog);
    var r := Merged(log, leader, m);
    if t == T && k <= m {
      assert r[k] == r[..m + 1][k] == leader[k];
    } else {
      assert Acked(c.h, v, t, k) && Has(log, t, k);
      LogMatching(log, c.h.termLog[t], c.h.termLog, k);
      if t < T { LaterLeaderHas(c, t, T, k); }
      MergedKeeps(log, leader, m, k);
      assert r[k] == r[..k + 1][k] == log[..k + 1][k];
    }
  }

  lemma AcceptKeepsAcksHeld(c: Core, v: nat, m: nat)
    requires NodesOk(c) && TermLogsOk(c.h) && ElectionLogs(c.h) && LeadersHold(c) && AcksHeld(c) && AcksOk(c)
    requires MayAccept(c, v, m)
    ensures AcksHeld(Accept(c, v, m))
  {
    var d := Accept(c, v, m);
    forall w: nat, t: nat, k: nat | w < |d.nodes| && Acked(d.h, w, t, k) && Own(d.h, t, k) && Choosable(d, t, k)
      ensures Has(d.nodes[w].log, t, k)
    {
      AcceptChoosable(c, v, m, t, k);
      assert Own(c.h, t, k);
      if w == v { AcceptorHolds(c, v, m, t, k); } else { AcceptOthers(c, v, m, w, t, k); }
    }
  }

  lemma AcceptOthers(c: Core, v: nat, m: nat, w: nat, t: nat, k: nat)
    requires AcksHeld(c) && MayAccept(c, v, m) && w < |c.nodes| && w != v
    requires Acked(Accept(c, v, m).h, w, t, k) && Own(c.h, t, k) && Choosable(c, t, k)
    ensures Has(Accept(c, v, m).nodes[w].log, t, k)
  {
    assert Acked(c.h, w, t, k);
  }

  lemma AcceptKeepsPastHeld(c: Core, v: nat, m: nat)
    requires BallotsOk(c) && BallotsHeld(c) && LeadersHold(c) && MayAccept(c, v, m)
    ensures var d := Accept(c, v, m); BallotsHeld(d) && LeadersHold(d)
  {
    var d := Accept(c, v, m);
    forall s: Slot, t: nat, k: nat | s in d.h.ballots && t < s.term && Acked(d.h, s.node, t, k)
                                     && Own(d.h, t, k) && Choosable(d, t, k)
      ensures Has(d.h.ballots[s].log, t, k)
    {
      assert BallotOk(c, s);
      AcceptChoosable(c, v, m, t, k);
      assert Acked(c.h, s.node, t, k) && Own(c.h, t, k);
    }
    forall u: nat, t: nat, k: nat | u in d.h.elections && t < u && Own(d.h, t, k) && Choosable(d, t, k)
      ensures Has(d.h.elections[u].log, t, k)
    {
      AcceptChoosable(c, v, m, t, k);
      assert Own(c.h, t, k);
    }
  }

  lemma AcceptKeeps(c: Core, v: nat, m: nat)
    requires CoreInv(c) && MayAccept(c, v, m)
    ensures CoreInv(Accept(c, v, m)) && Acked(Accept(c, v, m).h, v, c.nodes[v].term, m)
  {
    assert NodeOk(c.nodes[v], v, c.h);
    AcceptOnlyLogs(c, v, m);
    AcceptSameLogs(c, v, m);
    AcceptedLogOk(c, v, m);
    AcceptKeepsVotes(c, v, m);
    LogsKeepRecords(c, Accept(c, v, m), v);
    AcceptKeepsAcksHeld(c, v, m);
    AcceptKeepsPastHeld(c, v, m);
  }
}