/** Committed prefixes: they agree with each other, are never lost by a step, and are part of
    every later leader's log. */
module RaftCommitted {
  import opened RaftServer
  import opened RaftCore
  import opened RaftCoreSteps

  /** The log is a prefix of what some leader of a term up to `bound` had committed.  The
      sentinel alone is settled from the start. */
  ghost predicate Settled(c: Core, log: seq<Entry>, bound: nat) {
    log == [SENTINEL]
    || exists t: nat, k: nat :: Committed(c, t, k) && t <= bound && |log| <= k + 1 && log <= c.h.termLog[t]
  }

  /** Everything the history said, it still says. */
  ghost predicate HistGrows(c: Core, d: Core) {
    |c.nodes| == |d.nodes| && Grown(c.h.termLog, d.h.termLog)
    && (forall s :: s in c.h.campaigns ==> s in d.h.campaigns && d.h.campaigns[s] == c.h.campaigns[s])
    && (forall s :: s in c.h.ballots ==> s in d.h.ballots && d.h.ballots[s] == c.h.ballots[s])
    && (forall t :: t in c.h.elections ==> t in d.h.elections && d.h.elections[t] == c.h.elections[t])
    && (forall s :: s in c.h.acks ==> s in d.h.acks && c.h.acks[s] <= d.h.acks[s])
  }

  lemma HistGrowsTransitive(a: Core, b: Core, c: Core)
    requires HistGrows(a, b) && HistGrows(b, c)
    ensures HistGrows(a, c)
  {
  }

  lemma CommittedGrows(c: Core, d: Core, t: nat, k: nat)
    requires HistGrows(c, d) && Committed(c, t, k)
    ensures Committed(d, t, k)
  {
    var q :| Quorum(|c.nodes|, q) && AllAcked(c.h, q, t, k);
    assert AllAcked(d.h, q, t, k) by {
      forall v: nat | v in q
        ensures Acked(d.h, v, t, k)
      {
        assert Acked(c.h, v, t, k);
      }
    }
  }

  lemma SettledGrows(c: Core, d: Core, log: seq<Entry>, bound: nat, bound': nat)
    requires HistGrows(c, d) && Settled(c, log, bound) && bound <= bound'
    ensures Settled(d, log, bound')
  {
    if log != [SENTINEL] {
      var t: nat, k: nat :| Committed(c, t, k) && t <= bound && |log| <= k + 1 && log <= c.h.termLog[t];
      CommittedGrows(c, d, t, k);
      assert log <= d.h.termLog[t];
    }
  }

  lemma SettledShorter(c: Core, log: seq<Entry>, m: nat, bound: nat)
    requires Settled(c, log, bound) && 0 < m <= |log|
    ensures Settled(c, log[..m], bound)
  {
    if log != [SENTINEL] {
      var t: nat, k: nat :| Committed(c, t, k) && t <= bound && |log| <= k + 1 && log <= c.h.termLog[t];
      assert log[..m] <= c.h.termLog[t];
    } else {
      assert log[..m] == log;
    }
  }

  lemma PrefixThrough(log: seq<Entry>, a: seq<Entry>, b: seq<Entry>, k: nat)
    requires log <= a && |log| <= k + 1 <= |a| && k < |b| && a[..k + 1] == b[..k + 1]
    ensures log <= b
  {
    assert log == a[..k + 1][..|log|] == b[..k + 1][..|log|];
  }

  lemma PrefixesOfOne(a: seq<Entry>, b: seq<Entry>, log: seq<Entry>)
    requires a <= log && b <= log
    ensures a <= b || b <= a
  {
    assert a == log[..|a|] && b == log[..|b|];
  }

  lemma CommittedInLeader(c: Core, log: seq<Entry>, t: nat, k: nat, u: nat)
    requires TermLogsOk(c.h) && ElectionLogs(c.h) && LeadersHold(c)
    requires Committed(c, t, k) && |log| <= k + 1 && log <= c.h.termLog[t] && t <= u && u in c.h.termLog
    ensures log <= c.h.termLog[u]
  {
    if t < u {
      CommittedIsChoosable(c, t, k);
      LaterLeaderHas(c, t, u, k);
      PrefixThrough(log, c.h.termLog[t], c.h.termLog[u], k);
    }
  }

  lemma StartsWithSentinel(h: History, u: nat)
    requires TermLogsOk(h) && u in h.termLog
    ensures [SENTINEL] <= h.termLog[u]
  {
  }

  /** A committed prefix is in the log of every leader of its term or a later one. */
  lemma SettledInLeader(c: Core, log: seq<Entry>, bound: nat, u: nat)
    requires TermLogsOk(c.h) && ElectionLogs(c.h) && LeadersHold(c)
    requires Settled(c, log, bound) && bound <= u && u in c.h.termLog
    ensures log <= c.h.termLog[u]
  {
    if log == [SENTINEL] {
      StartsWithSentinel(c.h, u);
    } else {
      var t: nat, k: nat :| Committed(c, t, k) && t <= bound && |log| <= k + 1 && log <= c.h.termLog[t];
      CommittedInLeader(c, log, t, k, u);
    }
  }

  /** Some leader's log has both, so they agree. */
  lemma SettledInSome(c: Core, a: seq<Entry>, b: seq<Entry>, boundA: nat, boundB: nat) returns (u: nat)
    requires TermLogsOk(c.h) && ElectionLogs(c.h) && LeadersHold(c)
    requires Settled(c, a, boundA) && Settled(c, b, boundB) && a != [SENTINEL] && b != [SENTINEL]
    ensures u in c.h.termLog && a <= c.h.termLog[u] && b <= c.h.termLog[u]
  {
    var ta: nat, ka: nat :| Committed(c, ta, ka) && ta <= boundA && |a| <= ka + 1 && a <= c.h.termLog[ta];
    var tb: nat, kb: nat :| Committed(c, tb, kb) && tb <= boundB && |b| <= kb + 1 && b <= c.h.termLog[tb];
    u := if ta <= tb then tb else ta;
    CommittedInLeader(c, a, ta, ka, u);
    CommittedInLeader(c, b, tb, kb, u);
  }

  lemma SettledStart(c: Core, log: seq<Entry>, bound: nat)
    requires TermLogsOk(c.h) && Settled(c, log, bound) && log != []
    ensures [SENTINEL] <= log
  {
    if log != [SENTINEL] {
      var t: nat, k: nat :| Committed(c, t, k) && t <= bound && |log| <= k + 1 && log <= c.h.termLog[t];
      StartsWithSentinel(c.h, t);
    }
  }

  /** Any two committed prefixes agree. */
  lemma SettledAgree(c: Core, a: seq<Entry>, b: seq<Entry>, boundA: nat, boundB: nat)
    requires TermLogsOk(c.h) && ElectionLogs(c.h) && LeadersHold(c)
    requires Settled(c, a, boundA) && Settled(c, b, boundB) && a != [] && b != []
    ensures a <= b || b <= a
  {
    if a != [SENTINEL] && b != [SENTINEL] {
      var u := SettledInSome(c, a, b, boundA, boundB);
      PrefixesOfOne(a, b, c.h.termLog[u]);
    } else {
      SettledStart(c, a, boundA);
      SettledStart(c, b, boundB);
    }
  }

  /** Accepting a leader's entries keeps every committed prefix the follower knows of. */
  lemma AcceptKeepsSettled(c: Core, v: nat, m: nat, k: nat)
    requires TermLogsOk(c.h) && ElectionLogs(c.h) && LeadersHold(c) && MayAccept(c, v, m)
    requires k < |c.nodes[v].log| && Settled(c, c.nodes[v].log[..k + 1], c.nodes[v].term)
    ensures var r := Accept(c, v, m).nodes[v].log; k < |r| && r[..k + 1] == c.nodes[v].log[..k + 1]
  {
    var log, leader := c.nodes[v].log, c.h.termLog[c.nodes[v].term];
    SettledInLeader(c, log[..k + 1], c.nodes[v].term, c.nodes[v].term);
    assert log[..k + 1] == leader[..k + 1];
    MergedKeeps(log, leader, m, k);
  }
}
