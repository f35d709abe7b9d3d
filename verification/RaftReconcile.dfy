/** What AppendEntries' two loops compute: the log up to PrevLogIndex followed by the sent
    entries, except that a log agreeing with all of them is left alone, however much longer
    it is. */
module RaftReconcile {
  import opened Commands
  import opened RaftServer
  import opened RaftCore
  import opened RaftCoreSteps

  /** The log numbers its entries from 0, as it does until it is first compacted. */
  ghost predicate Uncompacted(log: seq<Entry>) {
    |log| > 0 && forall k :: 0 <= k < |log| ==> log[k].index == k
  }

  /** How many of the entries, from the first, the log already agrees with. */
  function Agreeing(log: seq<Entry>, entries: seq<Entry>, start: nat): (n: nat)
    ensures n <= |entries| && (n == 0 || start + n <= |log|)
    ensures forall k :: start <= k < start + n ==> log[k].term == entries[k - start].term
    ensures n < |entries| ==> start + n >= |log| || log[start + n].term != entries[n].term
    decreases |entries|
  {
    if entries == [] || start >= |log| || log[start].term != entries[0].term then 0
    else 1 + Agreeing(log, entries[1..], start + 1)
  }

  function Reconcile(log: seq<Entry>, entries: seq<Entry>, start: nat): seq<Entry> {
    var n := Agreeing(log, entries, start);
    if n == |entries| || start + n > |log| then log else log[..start + n] + entries[n..]
  }

  lemma {:induction false} DeletesNothing(log: seq<Entry>, entries: seq<Entry>, start: nat)
    requires Uncompacted(log) && Consecutive(entries, start) && start >= |log|
    ensures DeleteConflicts(log, entries) == log
    decreases |entries|
  {
    if entries != [] {
      assert Consecutive(entries[1..], start + 1);
      DeletesNothing(log, entries[1..], start + 1);
    }
  }

  lemma {:induction false} AppendsAll(log: seq<Entry>, entries: seq<Entry>)
    requires Uncompacted(log) && Consecutive(entries, |log|)
    ensures AppendNew(log, entries) == log + entries
    decreases |entries|
  {
    if entries != [] {
      assert Consecutive(entries[1..], |log| + 1);
      AppendsAll(log + [entries[0]], entries[1..]);
      assert log + [entries[0]] + entries[1..] == log + entries;
    }
  }

  lemma ConflictReconciles(log: seq<Entry>, entries: seq<Entry>, start: nat)
    requires Uncompacted(log) && Consecutive(entries, start) && 1 <= start < |log|
    requires entries != [] && log[start].term != entries[0].term
    ensures DeleteConflicts(log, entries) == log[..start]
    ensures AppendNew(log[..start], entries) == Reconcile(log, entries, start)
  {
    assert Consecutive(entries[1..], start + 1);
    DeletesNothing(log[..start], entries[1..], start + 1);
    AppendsAll(log[..start], entries);
  }

  lemma AgreementSkips(log: seq<Entry>, entries: seq<Entry>, start: nat)
    requires Uncompacted(log) && 1 <= start < |log|
    requires entries != [] && entries[0].index == start && log[start].term == entries[0].term
    ensures DeleteConflicts(log, entries) == DeleteConflicts(log, entries[1..])
    ensures Reconcile(log, entries, start) == Reconcile(log, entries[1..], start + 1)
  {
    AgreedIsKept(log, entries);
    hide DeleteConflicts, Uncompacted;
    var n := Agreeing(log, entries[1..], start + 1);
    assert Agreeing(log, entries, start) == 1 + n;
    assert entries[1 + n..] == entries[1..][n..];
  }

  lemma AgreedIsKept(log: seq<Entry>, entries: seq<Entry>)
    requires Uncompacted(log) && entries != [] && entries[0].index < |log| && log[entries[0].index].term == entries[0].term
    ensures Contiguous(log) && DeleteConflicts(log, entries) == DeleteConflicts(log, entries[1..])
  {
    assert GetLogEntry(log, entries[0].index) == Some(log[entries[0].index]);
  }

  lemma LongerSkips(d: seq<Entry>, entries: seq<Entry>)
    requires Uncompacted(d) && entries != [] && entries[0].index < |d|
    ensures AppendNew(d, entries) == AppendNew(d, entries[1..])
  {
  }

  /** The two loops, run one after the other, compute `Reconcile`. */
  lemma {:induction false} LoopsReconcile(log: seq<Entry>, entries: seq<Entry>, start: nat)
    requires Uncompacted(log) && Consecutive(entries, start) && 1 <= start <= |log|
    ensures var d := DeleteConflicts(log, entries);
            d != [] && d <= log && |d| >= start && AppendNew(d, entries) == Reconcile(log, entries, start)
    decreases |entries|
  {
    if entries != [] {
      if start == |log| {
        DeletesNothing(log, entries, start);
        AppendsAll(log, entries);
        assert log[..start] == log;
      } else if log[start].term != entries[0].term {
        ConflictReconciles(log, entries, start);
      } else {
        assert Consecutive(entries[1..], start + 1);
        LoopsReconcile(log, entries[1..], start + 1);
        AgreementSkips(log, entries, start);
        LongerSkips(DeleteConflicts(log, entries[1..]), entries);
      }
    }
  }

  lemma SplitLeader(leader: seq<Entry>, prev: nat, at: nat, m: nat)
    requires prev <= at < m < |leader|
    ensures leader[..at + 1] + leader[prev + 1..m + 1][at - prev..] == leader[..m + 1]
  {
  }

  lemma ReconcileByPrefix(log: seq<Entry>, leader: seq<Entry>, prev: nat, at: nat, m: nat)
    requires prev <= at <= m < |leader| && at < |log| && log[..at + 1] == leader[..at + 1]
    requires at == prev + Agreeing(log, leader[prev + 1..m + 1], prev + 1)
    ensures Reconcile(log, leader[prev + 1..m + 1], prev + 1) == if at == m then log else leader[..m + 1]
  {
    if at < m { SplitLeader(leader, prev, at, m); }
  }

  /** Against a leader's log, and because of Log Matching, reconciling is merging. */
  lemma ReconcileMerges(log: seq<Entry>, leader: seq<Entry>, prev: nat, m: nat, termLog: map<nat, seq<Entry>>)
    requires LogOk(log, termLog) && LogOk(leader, termLog)
    requires prev <= m < |leader| && prev < |log| && log[prev].term == leader[prev].term
    ensures Reconcile(log, leader[prev + 1..m + 1], prev + 1) == Merged(log, leader, m)
  {
    hide LogOk, Reconcile, Agreeing;
    var at := prev + Agreeing(log, leader[prev + 1..m + 1], prev + 1);
    AgreesAt(log, leader, prev, m);
    LogMatching(log, leader, termLog, at);
    ReconcileByPrefix(log, leader, prev, at, m);
    if at < m { AgreeEarlier(log, leader, m, at + 1, termLog); }
  }

  /** AppendEntries' two loops, fed a segment of a leader's log, produce the merged log. */
  lemma LoopsMerge(log: seq<Entry>, leader: seq<Entry>, entries: seq<Entry>, prev: nat, m: nat,
                   termLog: map<nat, seq<Entry>>)
    requires LogOk(log, termLog) && LogOk(leader, termLog)
    requires prev <= m < |leader| && prev < |log| && log[prev].term == leader[prev].term
    requires entries == leader[prev + 1..m + 1]
    ensures var d := DeleteConflicts(log, entries); d != [] && AppendNew(d, entries) == Merged(log, leader, m)
  {
    ReconcileMerges(log, leader, prev, m, termLog);
    assert Consecutive(entries, prev + 1);
    LoopsReconcile(log, entries, prev + 1);
  }

  lemma AgreeEarlier(a: seq<Entry>, b: seq<Entry>, m: nat, k: nat, termLog: map<nat, seq<Entry>>)
    requires LogOk(a, termLog) && LogOk(b, termLog) && k <= m < |b|
    ensures m < |a| && a[m].term == b[m].term ==> a[k].term == b[k].term
  {
    if m < |a| && a[m].term == b[m].term {
      LogMatching(a, b, termLog, m);
      assert a[k] == a[..m + 1][k];
    }
  }

  lemma AgreesAt(log: seq<Entry>, leader: seq<Entry>, prev: nat, m: nat)
    requires prev <= m < |leader| && prev < |log| && log[prev].term == leader[prev].term
    ensures var at := prev + Agreeing(log, leader[prev + 1..m + 1], prev + 1);
            at < |log| && log[at].term == leader[at].term
            && (at < m ==> at + 1 == |log| || log[at + 1].term != leader[at + 1].term)
  {
  }
}
