/** The heart of the safety argument.  A `Core` keeps only what Raft's safety rests on, each
    node's durable state, together with a history of the campaigns, votes, elections and
    acknowledgements of the run.  The history is written by the transitions and read by
    none of them; it exists so that the invariant can speak about the past. */
module RaftCore {
  import opened RaftServer
  import Sets

  datatype Node = Node(term: nat, vote: int, log: seq<Entry>)

  datatype Slot = Slot(node: nat, term: nat)

  /** A vote, with the voter's log at the moment it was cast. */
  datatype Ballot = Ballot(candidate: nat, log: seq<Entry>)

  /** A tally that passed the majority test, with the winner's log at that moment. */
  datatype Election = Election(leader: nat, voters: set<nat>, log: seq<Entry>)

  datatype History = History(
    campaigns: map<Slot, seq<Entry>>,   // candidate's log when it asked for votes
    ballots: map<Slot, Ballot>,         // by voter and term
    elections: map<nat, Election>,      // by term
    termLog: map<nat, seq<Entry>>,      // the log of the leader of each term, as far as it got
    acks: map<Slot, nat>)               // how far a node has acknowledged the log of a term's leader

  datatype Core = Core(nodes: seq<Node>, h: History)

  // ----- majorities -----

  ghost predicate Quorum(n: nat, q: set<nat>) {
    q <= PeerIds(n) && |q| > n / 2
  }

  lemma QuorumsMeet(n: nat, a: set<nat>, b: set<nat>) returns (v: nat)
    requires Quorum(n, a) && Quorum(n, b)
    ensures v in a && v in b && v < n
  {
    if a !! b {
      Sets.SubsetSize(a + b, PeerIds(n));
      assert false;
    }
    v :| v in a && v in b;
  }

  // ----- logs and the leaders that wrote them -----

  /** Entry k of the log was written by the leader of its term, and so was all before it. */
  ghost predicate Backed(log: seq<Entry>, termLog: map<nat, seq<Entry>>, k: nat)
    requires k < |log|
  {
    var t := log[k].term;
    t > 0 && t in termLog && k < |termLog[t]| && log[..k + 1] == termLog[t][..k + 1]
  }

  ghost predicate Ordered(log: seq<Entry>, j: nat, k: nat)
    requires j < |log| && k < |log|
  {
    log[j].term <= log[k].term
  }

  ghost predicate Monotone(log: seq<Entry>) {
    forall j: nat, k: nat {:trigger Ordered(log, j, k)} :: j <= k < |log| ==> Ordered(log, j, k)
  }

  ghost predicate LogOk(log: seq<Entry>, termLog: map<nat, seq<Entry>>) {
    |log| > 0 && log[0] == SENTINEL
    && (forall k :: 0 <= k < |log| ==> log[k].index == k)
    && (forall k :: 1 <= k < |log| ==> Backed(log, termLog, k))
    && Monotone(log)
  }

  ghost predicate Grown(a: map<nat, seq<Entry>>, b: map<nat, seq<Entry>>) {
    forall t :: t in a ==> t in b && a[t] <= b[t]
  }

  lemma LogOkGrows(log: seq<Entry>, a: map<nat, seq<Entry>>, b: map<nat, seq<Entry>>)
    requires LogOk(log, a) && Grown(a, b)
    ensures LogOk(log, b)
  {
    forall k | 1 <= k < |log|
      ensures Backed(log, b, k)
    {
      assert Backed(log, a, k);
      var t := log[k].term;
      assert a[t][..k + 1] == b[t][..k + 1];
    }
  }

  /** Log Matching: entries of equal index and term imply equal logs up to that index. */
  lemma LogMatching(a: seq<Entry>, b: seq<Entry>, termLog: map<nat, seq<Entry>>, k: nat)
    requires LogOk(a, termLog) && LogOk(b, termLog)
    requires k < |a| && k < |b| && a[k].term == b[k].term
    ensures a[..k + 1] == b[..k + 1]
  {
    if k > 0 {
      assert Backed(a, termLog, k) && Backed(b, termLog, k);
    }
  }

  lemma PrefixLogOk(log: seq<Entry>, termLog: map<nat, seq<Entry>>, m: nat)
    requires LogOk(log, termLog) && 0 < m <= |log|
    ensures LogOk(log[..m], termLog)
  {
    forall k | 1 <= k < m
      ensures Backed(log[..m], termLog, k)
    {
      assert Backed(log, termLog, k);
      assert log[..m][..k + 1] == log[..k + 1];
    }
    MonotonePrefix(log, m);
  }

  lemma MonotonePrefix(log: seq<Entry>, m: nat)
    requires Monotone(log) && m <= |log|
    ensures Monotone(log[..m])
  {
    forall j: nat, k: nat | j <= k < m
      ensures Ordered(log[..m], j, k)
    {
      assert Ordered(log, j, k);
    }
  }

  // ----- what can still be committed -----

  /** Entry k of term t's leader was written by that leader itself. */
  ghost predicate Own(h: History, t: nat, k: nat) {
    t in h.termLog && k < |h.termLog[t]| && h.termLog[t][k].term == t
  }

  ghost predicate Acked(h: History, v: nat, t: nat, k: nat) {
    Slot(v, t) in h.acks && k <= h.acks[Slot(v, t)]
  }

  ghost predicate AllAcked(h: History, q: set<nat>, t: nat, k: nat) {
    forall v: nat :: v in q ==> Acked(h, v, t, k)
  }

  /** The commit rule: a majority holds entry k of its own term's leader. */
  ghost predicate Committed(c: Core, t: nat, k: nat) {
    Own(c.h, t, k) && exists q :: Quorum(|c.nodes|, q) && AllAcked(c.h, q, t, k)
  }

  ghost predicate MayAck(c: Core, v: nat, t: nat, k: nat) {
    Acked(c.h, v, t, k) || (v < |c.nodes| && c.nodes[v].term <= t)
  }

  ghost predicate AllMayAck(c: Core, q: set<nat>, t: nat, k: nat) {
    forall v: nat :: v in q ==> MayAck(c, v, t, k)
  }

  /** No majority has moved past term t without acknowledging entry k. */
  ghost predicate Choosable(c: Core, t: nat, k: nat) {
    exists q :: Quorum(|c.nodes|, q) && AllMayAck(c, q, t, k)
  }

  lemma CommittedIsChoosable(c: Core, t: nat, k: nat)
    requires Committed(c, t, k)
    ensures Choosable(c, t, k)
  {
    var q :| Quorum(|c.nodes|, q) && AllAcked(c.h, q, t, k);
    assert AllMayAck(c, q, t, k);
  }

  lemma ChoosableShrinks(c: Core, d: Core, t: nat, k: nat)
    requires |c.nodes| == |d.nodes|
    requires forall v: nat | v < |c.nodes| && MayAck(d, v, t, k) :: MayAck(c, v, t, k)
    ensures Choosable(d, t, k) ==> Choosable(c, t, k)
  {
    if Choosable(d, t, k) {
      var q :| Quorum(|d.nodes|, q) && AllMayAck(d, q, t, k);
      assert AllMayAck(c, q, t, k);
    }
  }

  /** A majority that voted in a later term without having acknowledged k rules k out. */
  lemma NotChoosable(c: Core, t: nat, k: nat, voters: set<nat>)
    requires Quorum(|c.nodes|, voters)
    requires forall v: nat :: v in voters ==> v < |c.nodes| && !MayAck(c, v, t, k)
    ensures !Choosable(c, t, k)
  {
    if Choosable(c, t, k) {
      var q :| Quorum(|c.nodes|, q) && AllMayAck(c, q, t, k);
      var v := QuorumsMeet(|c.nodes|, q, voters);
    }
  }

  // ----- the invariant -----

  ghost predicate NodeOk(n: Node, i: nat, h: History) {
    LogOk(n.log, h.termLog) && LastTerm(n.log) <= n.term
    && (n.vote == -1 || (Slot(i, n.term) in h.ballots && h.ballots[Slot(i, n.term)].candidate == n.vote))
  }

  ghost predicate NodesOk(c: Core) {
    forall i :: 0 <= i < |c.nodes| ==> NodeOk(c.nodes[i], i, c.h)
  }

  ghost predicate TermLogsOk(h: History) {
    forall t :: t in h.termLog ==>
      t > 0 && t in h.elections && LogOk(h.termLog[t], h.termLog) && LastTerm(h.termLog[t]) <= t
  }

  /** A candidate's log does not change before its term has a leader. */
  ghost predicate CampaignOk(c: Core, s: Slot) {
    s in c.h.campaigns && s.node < |c.nodes| && s.term <= c.nodes[s.node].term
    && LogOk(c.h.campaigns[s], c.h.termLog) && LastTerm(c.h.campaigns[s]) < s.term
    && (c.nodes[s.node].term == s.term && s.term !in c.h.elections
        ==> c.nodes[s.node].log == c.h.campaigns[s])
  }

  ghost predicate CampaignsOk(c: Core) {
    forall s :: s in c.h.campaigns ==> CampaignOk(c, s)
  }

  ghost predicate Fresher(a: seq<Entry>, b: seq<Entry>)
    requires |a| > 0 && |b| > 0
  {
    LastTerm(a) > LastTerm(b) || (LastTerm(a) == LastTerm(b) && |a| >= |b|)
  }

  /** A vote is remembered while the voter stays in its term, and went to a log as fresh as its own. */
  ghost predicate BallotOk(c: Core, s: Slot) {
    s in c.h.ballots && s.node < |c.nodes| && s.term <= c.nodes[s.node].term
    && (c.nodes[s.node].term == s.term ==> c.nodes[s.node].vote == c.h.ballots[s].candidate)
    && LogOk(c.h.ballots[s].log, c.h.termLog)
    && var request := Slot(c.h.ballots[s].candidate, s.term);
       request in c.h.campaigns && |c.h.campaigns[request]| > 0
       && Fresher(c.h.campaigns[request], c.h.ballots[s].log)
  }

  ghost predicate BallotsOk(c: Core) {
    forall s :: s in c.h.ballots ==> BallotOk(c, s)
  }

  ghost predicate VotedFor(h: History, voters: set<nat>, t: nat, candidate: nat) {
    forall v: nat :: v in voters ==> Slot(v, t) in h.ballots && h.ballots[Slot(v, t)].candidate == candidate
  }

  ghost predicate ElectionVotes(c: Core) {
    forall t :: t in c.h.elections ==>
      Quorum(|c.nodes|, c.h.elections[t].voters)
      && VotedFor(c.h, c.h.elections[t].voters, t, c.h.elections[t].leader)
  }

  /** While a leader is still in its term its log is that term's log. */
  ghost predicate ElectionLeaders(c: Core) {
    forall t :: t in c.h.elections ==>
      var leader := c.h.elections[t].leader;
      leader < |c.nodes| && t <= c.nodes[leader].term && t in c.h.termLog
      && (t == c.nodes[leader].term ==> c.nodes[leader].log == c.h.termLog[t])
  }

  /** A leader only appends entries of its own term to the log it was elected with. */
  ghost predicate ElectionLogs(h: History) {
    forall t :: t in h.elections ==>
      var log := h.elections[t].log;
      t in h.termLog && log != [] && log <= h.termLog[t] && LastTerm(log) < t
      && forall k :: |log| <= k < |h.termLog[t]| ==> h.termLog[t][k].term == t
  }

  /** A leader acknowledges its own log as it writes it. */
  ghost predicate LeaderAcks(h: History) {
    forall t :: t in h.elections ==>
      t in h.termLog && h.termLog[t] != [] && Acked(h, h.elections[t].leader, t, |h.termLog[t]| - 1)
  }

  ghost predicate AcksOk(c: Core) {
    forall s :: s in c.h.acks ==>
      s.node < |c.nodes| && s.term <= c.nodes[s.node].term
      && s.term in c.h.termLog && c.h.acks[s] < |c.h.termLog[s.term]|
  }

  ghost predicate Has(log: seq<Entry>, t: nat, k: nat) {
    k < |log| && log[k].term == t
  }

  /** What a node acknowledged and could still be committed, it still holds. */
  ghost predicate AcksHeld(c: Core) {
    forall v: nat, t: nat, k: nat :: v < |c.nodes| && Acked(c.h, v, t, k) && Own(c.h, t, k) && Choosable(c, t, k)
      ==> Has(c.nodes[v].log, t, k)
  }

  /** ... and it held it whenever it voted in a later term. */
  ghost predicate BallotsHeld(c: Core) {
    forall s: Slot, t: nat, k: nat :: s in c.h.ballots && t < s.term && Acked(c.h, s.node, t, k) && Own(c.h, t, k)
                      && Choosable(c, t, k)
      ==> Has(c.h.ballots[s].log, t, k)
  }

  /** Every later leader was elected holding it. */
  ghost predicate LeadersHold(c: Core) {
    forall u: nat, t: nat, k: nat :: u in c.h.elections && t < u && Own(c.h, t, k) && Choosable(c, t, k)
      ==> Has(c.h.elections[u].log, t, k)
  }

  ghost predicate CoreInv(c: Core) {
    NodesOk(c) && TermLogsOk(c.h) && CampaignsOk(c) && BallotsOk(c) && ElectionVotes(c)
    && ElectionLeaders(c) && ElectionLogs(c.h) && AcksOk(c) && LeaderAcks(c.h)
    && AcksHeld(c) && BallotsHeld(c) && LeadersHold(c)
  }

  // ----- consequences of the invariant -----

  /** Two winning tallies of one term belong to one server. */
  lemma OneLeader(c: Core, t: nat, a: nat, b: nat, votersA: set<nat>, votersB: set<nat>)
    requires Quorum(|c.nodes|, votersA) && VotedFor(c.h, votersA, t, a)
    requires Quorum(|c.nodes|, votersB) && VotedFor(c.h, votersB, t, b)
    ensures a == b
  {
    var v := QuorumsMeet(|c.nodes|, votersA, votersB);
  }

  /** Whatever could still be committed at t is in the log of every later term's leader. */
  lemma LaterLeaderHas(c: Core, t: nat, u: nat, k: nat)
    requires TermLogsOk(c.h) && ElectionLogs(c.h) && LeadersHold(c)
    requires t < u && u in c.h.termLog && Own(c.h, t, k) && Choosable(c, t, k)
    ensures k < |c.h.termLog[u]| && c.h.termLog[u][..k + 1] == c.h.termLog[t][..k + 1]
  {
    assert u in c.h.elections;
    assert Has(c.h.elections[u].log, t, k);
    LogMatching(c.h.termLog[u], c.h.termLog[t], c.h.termLog, k);
  }

  /** Logs ending in the same term are prefixes of that term's leader's log. */
  lemma SameTermPrefix(a: seq<Entry>, b: seq<Entry>, termLog: map<nat, seq<Entry>>)
    requires LogOk(a, termLog) && LogOk(b, termLog) && LastTerm(a) == LastTerm(b) && |a| >= |b|
    ensures a[..|b|] == b
  {
    if |a| > 1 {
      assert Backed(a, termLog, |a| - 1);
      assert |b| > 1;
      assert Backed(b, termLog, |b| - 1);
      var l := termLog[LastTerm(a)];
      assert a == a[..|a|] == l[..|a|];
      assert b == b[..|b|] == l[..|b|];
    }
  }

  lemma EndsInTermLog(log: seq<Entry>, termLog: map<nat, seq<Entry>>)
    requires LogOk(log, termLog) && LastTerm(log) > 0
    ensures var u := LastTerm(log); u in termLog && |log| <= |termLog[u]| && log == termLog[u][..|log|]
  {
    assert Backed(log, termLog, |log| - 1) && log[..|log|] == log;
  }

  /** A log ending in a later term runs past that term's election log, which has the entry. */
  lemma LaterTermLogHas(c: Core, log: seq<Entry>, t: nat, k: nat)
    requires TermLogsOk(c.h) && ElectionLogs(c.h) && LeadersHold(c)
    requires Own(c.h, t, k) && Choosable(c, t, k)
    requires LogOk(log, c.h.termLog) && t < LastTerm(log)
    ensures Has(log, t, k)
  {
    var u := LastTerm(log);
    EndsInTermLog(log, c.h.termLog);
    assert Has(c.h.elections[u].log, t, k);
    PastElection(c.h.elections[u].log, c.h.termLog[u], log, u, k);
  }

  lemma PastElection(e: seq<Entry>, l: seq<Entry>, log: seq<Entry>, u: nat, k: nat)
    requires e != [] && e <= l && LastTerm(e) < u && Monotone(l) && k < |e|
    requires 0 < |log| <= |l| && log == l[..|log|] && LastTerm(log) == u
    ensures k < |log| && log[k] == e[k]
  {
    var last := |log| - 1;
    assert Ordered(l, if last < |e| then last else |e| - 1, |e| - 1);
  }

  /** The vote check carries a choosable entry from a voter's log to the candidate's. */
  lemma FresherLogHas(c: Core, candidate: seq<Entry>, voter: seq<Entry>, t: nat, k: nat)
    requires TermLogsOk(c.h) && ElectionLogs(c.h) && LeadersHold(c)
    requires Own(c.h, t, k) && Choosable(c, t, k)
    requires LogOk(candidate, c.h.termLog) && LogOk(voter, c.h.termLog)
    requires Fresher(candidate, voter) && Has(voter, t, k)
    ensures Has(candidate, t, k)
  {
    assert Ordered(voter, k, |voter| - 1);
    if LastTerm(candidate) == LastTerm(voter) {
      SameTermPrefix(candidate, voter, c.h.termLog);
      assert candidate[k] == candidate[..|voter|][k];
    } else {
      LaterTermLogHas(c, candidate, t, k);
    }
  }
}
