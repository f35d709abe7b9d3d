/** Fast backup: each rejection moves nextIndex back at least one entry and never past the point
    where the two logs part, so it lands where stepping back one entry at a time would. */
module RaftBackup {
  import opened RaftServer
  import opened RaftCore
  import opened RaftReconcile
  import opened RaftSystem
  import opened RaftSafety
  import opened RaftTheorems

  ghost predicate AgreeAt(leader: seq<Entry>, follower: seq<Entry>, k: nat) {
    k < |leader| && k < |follower| && leader[k].term == follower[k].term
  }

  /** The last index at which the logs agree; they agree nowhere beyond and everywhere before. */
  ghost predicate PartsAfter(leader: seq<Entry>, follower: seq<Entry>, last: nat) {
    AgreeAt(leader, follower, last) && !AgreeAt(leader, follower, last + 1)
  }

  lemma AgreementIsDownward(leader: seq<Entry>, follower: seq<Entry>, termLog: map<nat, seq<Entry>>, j: nat, k: nat)
    requires LogOk(leader, termLog) && LogOk(follower, termLog)
    ensures j <= k && AgreeAt(leader, follower, k) ==> AgreeAt(leader, follower, j)
  {
    if j <= k && AgreeAt(leader, follower, k) {
      LogMatching(leader, follower, termLog, k);
      assert leader[j] == leader[..k + 1][j];
    }
  }

  lemma TermsRise(log: seq<Entry>, termLog: map<nat, seq<Entry>>, j: nat, k: nat)
    requires LogOk(log, termLog)
    ensures j <= k < |log| ==> log[j].term <= log[k].term
    ensures 0 < k < |log| ==> log[k].term > 0
  {
    if j <= k < |log| { assert Ordered(log, j, k); }
    if 0 < k < |log| { assert Backed(log, termLog, k); }
  }

  /** Entries of one term at different indices still show that the logs agree at the lower one. */
  lemma SameTermAgrees(a: seq<Entry>, b: seq<Entry>, termLog: map<nat, seq<Entry>>, k: nat, j: nat)
    requires LogOk(a, termLog) && LogOk(b, termLog) && 0 < j
    ensures j <= k < |a| && j < |b| && a[k].term == b[j].term ==> AgreeAt(a, b, j)
  {
    if j <= k < |a| && j < |b| && a[k].term == b[j].term {
      assert Backed(a, termLog, k) && Backed(b, termLog, j);
      var l := termLog[b[j].term];
      assert a[j] == a[..k + 1][j] == l[..k + 1][j];
      assert b[j] == b[..j + 1][j] == l[..j + 1][j];
    }
  }

  lemma {:induction false} FindTermExact(log: seq<Entry>, term: int, from: nat)
    requires Uncompacted(log) && Contiguous(log) && from <= |log|
    ensures var i := FindTerm(log, term, from);
            from <= i <= |log| && (i < |log| ==> log[i].term == term)
            && forall k :: from <= k < i ==> log[k].term != term
    decreases |log| - from
  {
    if from < |log| && log[from].term != term { FindTermExact(log, term, from + 1); }
  }

  lemma {:induction false} SkipTermExact(log: seq<Entry>, term: int, from: nat)
    requires Uncompacted(log) && Contiguous(log) && from <= |log|
    ensures var i := SkipTerm(log, term, from);
            from <= i <= |log| && (i < |log| ==> log[i].term != term)
            && forall k :: from <= k < i ==> log[k].term == term
    decreases |log| - from
  {
    if from < |log| && log[from].term == term { SkipTermExact(log, term, from + 1); }
  }

  lemma {:induction false} FirstIndexExact(log: seq<Entry>, term: nat, at: nat)
    requires at < |log| && log[at].term == term
    requires forall j :: 0 <= j < |log| ==> log[j].index == log[0].index + j
    ensures var f := FirstIndexOfTerm(log, term) - log[0].index;
            0 <= f <= at && log[f].term == term
    decreases |log|
  {
    if log[0].term != term { FirstIndexExact(log[1..], term, at - 1); }
  }

  /** The leader's run of the conflicting term, if it has one, ends at or before the rejected
      entry, but not before the logs part. */
  lemma LeaderRunBounds(leader: seq<Entry>, follower: seq<Entry>, termLog: map<nat, seq<Entry>>,
                        prev: nat, last: nat, start: nat, end: nat)
    requires LogOk(leader, termLog) && LogOk(follower, termLog)
    requires 1 <= prev < |leader| && prev < |follower| && !AgreeAt(leader, follower, prev)
    requires AgreeAt(leader, follower, last)
    requires 1 <= start < end <= |leader| && leader[end - 1].term == follower[prev].term
    requires end < |leader| ==> leader[end].term != follower[prev].term
    ensures last < end <= prev
  {
    SameTermAgrees(leader, follower, termLog, end - 1, prev);
    AgreementIsDownward(leader, follower, termLog, prev, last);
    TermsRise(leader, termLog, end - 1, end);
    TermsRise(leader, termLog, end, last);
    TermsRise(follower, termLog, last, prev);
  }

  lemma HintBounds(leader: seq<Entry>, follower: seq<Entry>, termLog: map<nat, seq<Entry>>, prev: nat, last: nat, f: nat)
    requires LogOk(leader, termLog) && LogOk(follower, termLog)
    requires 1 <= prev < |leader| && prev < |follower| && !AgreeAt(leader, follower, prev)
    requires AgreeAt(leader, follower, last)
    requires f <= prev && follower[f].term == follower[prev].term
    requires forall k :: 1 <= k < |leader| ==> leader[k].term != follower[prev].term
    ensures last < f
  {
    AgreementIsDownward(leader, follower, termLog, prev, last);
    TermsRise(follower, termLog, f, last);
    TermsRise(follower, termLog, last, prev);
  }

  /** One rejection: nextIndex becomes at most the rejected PrevLogIndex, and stays beyond the last
      index at which the logs agree. */
  lemma BackupExact(leader: seq<Entry>, follower: seq<Entry>, termLog: map<nat, seq<Entry>>,
                    prev: nat, last: nat, term: nat)
    requires LogOk(leader, termLog) && LogOk(follower, termLog) && Contiguous(leader) && Contiguous(follower)
    requires 1 <= prev < |leader| && !AgreeAt(leader, follower, prev) && AgreeAt(leader, follower, last)
    ensures last < Backup(leader, Rejection(term, follower, prev)) <= prev
  {
    if prev < |follower| {
      var ct := follower[prev].term;
      var i := FindTerm(leader, ct, 1);
      FindTermExact(leader, ct, 1);
      if i < |leader| {
        SkipTermExact(leader, ct, i);
        LeaderRunBounds(leader, follower, termLog, prev, last, i, SkipTerm(leader, ct, i));
      } else {
        FirstIndexExact(follower, ct, prev);
        HintBounds(leader, follower, termLog, prev, last, FirstIndexOfTerm(follower, ct));
      }
    }
  }

  // ----- the whole retry -----

  /** The follower's own test, on the message a leader would send. */
  predicate Accepts(leader: seq<Entry>, follower: seq<Entry>, prev: nat)
    requires Contiguous(leader) && Contiguous(follower)
  {
    PrevMatches(follower, AppendArgs(0, 0, prev, TermAt(leader, prev), [], 0))
  }

  /** Where the retries end, when a rejection is answered by fast backup. */
  ghost function FastLanding(leader: seq<Entry>, follower: seq<Entry>, next: nat, term: nat): nat
    requires Contiguous(leader) && Contiguous(follower) && next >= 1
    decreases next
  {
    if Accepts(leader, follower, next - 1) then next
    else
      var back := Backup(leader, Rejection(term, follower, next - 1));
      if 1 <= back < next then FastLanding(leader, follower, back, term) else 0
  }

  /** Where they end when every rejection steps back one entry. */
  ghost function SlowLanding(leader: seq<Entry>, follower: seq<Entry>, next: nat): nat
    requires Contiguous(leader) && Contiguous(follower) && next >= 1
    decreases next
  {
    if Accepts(leader, follower, next - 1) then next else SlowLanding(leader, follower, next - 1)
  }

  lemma {:induction false} SlowLandsAt(leader: seq<Entry>, follower: seq<Entry>, termLog: map<nat, seq<Entry>>, next: nat, last: nat)
    requires LogOk(leader, termLog) && LogOk(follower, termLog) && Contiguous(leader) && Contiguous(follower)
    requires 1 <= next <= |leader| && PartsAfter(leader, follower, last)
    ensures SlowLanding(leader, follower, next) == Min(next, last + 1)
    decreases next
  {
    if next - 1 <= last {
      AgreementIsDownward(leader, follower, termLog, next - 1, last);
    } else {
      AgreementIsDownward(leader, follower, termLog, last + 1, next - 1);
      SlowLandsAt(leader, follower, termLog, next - 1, last);
    }
  }

  lemma {:induction false} FastLandsAt(leader: seq<Entry>, follower: seq<Entry>, termLog: map<nat, seq<Entry>>,
                                       next: nat, last: nat, term: nat)
    requires LogOk(leader, termLog) && LogOk(follower, termLog) && Contiguous(leader) && Contiguous(follower)
    requires 1 <= next <= |leader| && PartsAfter(leader, follower, last)
    ensures FastLanding(leader, follower, next, term) == Min(next, last + 1)
    decreases next
  {
    hide Backup, Rejection;
    if next - 1 <= last {
      AgreementIsDownward(leader, follower, termLog, next - 1, last);
    } else {
      AgreementIsDownward(leader, follower, termLog, last + 1, next - 1);
      BackupExact(leader, follower, termLog, next - 1, last, term);
      FastLandsAt(leader, follower, termLog, Backup(leader, Rejection(term, follower, next - 1)), last, term);
    }
  }

  lemma {:induction false} PartingExists(leader: seq<Entry>, follower: seq<Entry>, from: nat) returns (last: nat)
    requires AgreeAt(leader, follower, from)
    ensures PartsAfter(leader, follower, last)
    decreases |leader| - from
  {
    if AgreeAt(leader, follower, from + 1) {
      last := PartingExists(leader, follower, from + 1);
    } else {
      last := from;
    }
  }

  /** In every run, between any two servers' logs, fast backup ends exactly where stepping back
      one entry at a time would. */
  lemma FastBackupExact(n: nat, states: seq<State>, steps: seq<Step>, a: nat, i: nat, j: nat, next: nat, term: nat)
    requires Run(n, states, steps) && a < |states| && i < |states[a].servers| && j < |states[a].servers|
    requires 1 <= next <= |states[a].servers[i].log|
    ensures var x, y := states[a].servers[i].log, states[a].servers[j].log;
            Contiguous(x) && Contiguous(y)
            && FastLanding(x, y, next, term) == SlowLanding(x, y, next)
            && 1 <= FastLanding(x, y, next, term) <= next
  {
    hide Inv;
    RunInv(n, states, steps, a);
    LogInOrder(states[a], i);
    LogInOrder(states[a], j);
    var x, y := states[a].servers[i].log, states[a].servers[j].log;
    var last := PartingExists(x, y, 0);
    SlowLandsAt(x, y, states[a].h.termLog, next, last);
    FastLandsAt(x, y, states[a].h.termLog, next, last, term);
  }
}
