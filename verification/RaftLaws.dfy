/** What the handlers of a peer answer and change, in terms of its fields and of the arguments alone, and
    what that means for a cluster: somebody can always be elected, and a bare majority commits. */
module RaftLaws {
  import opened Commands
  import opened RaftServer

  function Greater(a: nat, b: nat): nat { if a > b then a else b }

  // ----- RequestVote -----

  /** Granted if and only if the term is not old, the vote is free or already the candidate's, and the
      candidate's last entry is of a later term, or of the same term and no smaller index. */
  lemma VoteMeans(s: Server, args: VoteArgs)
    requires Contiguous(s.log)
    ensures var (r, reply) := HandleRequestVote(s, args); var last := s.log[|s.log| - 1];
            (reply.voteGranted <==>
               args.term >= s.currentTerm
               && (args.term > s.currentTerm || s.votedFor == -1 || s.votedFor == args.candidateId)
               && (args.lastLogTerm > last.term || (args.lastLogTerm == last.term && args.lastLogIndex >= last.index)))
            && reply.term == Greater(args.term, s.currentTerm)
            && r == s.(currentTerm := reply.term,
                       votedFor := if reply.voteGranted then args.candidateId
                                   else if args.term > s.currentTerm then -1 else s.votedFor,
                       role := if args.term > s.currentTerm then Follower else s.role,
                       disk := if reply.voteGranted || args.term > s.currentTerm
                               then Some(Durable(r.currentTerm, r.votedFor, s.log)) else s.disk)
  {
  }

  /** Server i, asking in a term new to server j, would get its vote. */
  ghost predicate WouldVoteFor(f: Server, g: Server, i: nat, t: nat)
    requires Contiguous(f.log) && Contiguous(g.log)
  {
    HandleRequestVote(f, VoteArgs(t, i, LastIndex(g.log), LastTerm(g.log))).1.voteGranted
  }

  /** Of any two servers, one would vote for the other. */
  lemma OneVotesForOther(f: Server, g: Server, i: nat, j: nat, t: nat)
    requires Contiguous(f.log) && Contiguous(g.log) && t > f.currentTerm && t > g.currentTerm
    ensures WouldVoteFor(f, g, j, t) || WouldVoteFor(g, f, i, t)
  {
    VoteMeans(f, VoteArgs(t, j, LastIndex(g.log), LastTerm(g.log)));
    VoteMeans(g, VoteArgs(t, i, LastIndex(f.log), LastTerm(f.log)));
  }

  ghost predicate AllWouldVoteFor(servers: seq<Server>, n: nat, i: nat, t: nat)
    requires i < |servers| && n <= |servers| && forall k :: 0 <= k < |servers| ==> Contiguous(servers[k].log)
  {
    forall k :: 0 <= k < n ==> WouldVoteFor(servers[k], servers[i], i, t)
  }

  /** In any cluster there is a server that all would vote for: the restriction never leaves everybody
      refused. */
  lemma {:induction false} SomebodyElectable(servers: seq<Server>, n: nat, t: nat) returns (i: nat)
    requires 0 < n <= |servers|
    requires forall k :: 0 <= k < |servers| ==> Contiguous(servers[k].log) && t > servers[k].currentTerm
    ensures i < n && AllWouldVoteFor(servers, n, i, t)
    decreases n
  {
    hide HandleRequestVote, Contiguous;
    if n == 1 {
      i := 0;
      OneVotesForOther(servers[0], servers[0], 0, 0, t);
    } else {
      var best := SomebodyElectable(servers, n - 1, t);
      var f, g := servers[best], servers[n - 1];
      OneVotesForOther(g, g, n - 1, n - 1, t);
      OneVotesForOther(f, g, best, n - 1, t);
      if WouldVoteFor(g, f, best, t) {
        i := best;
      } else {
        i := n - 1;
        forall k | 0 <= k < n ensures WouldVoteFor(servers[k], g, n - 1, t) {
          if k < n - 1 { VotesCompose(servers[k], f, g, best, n - 1, t); }
        }
      }
    }
  }

  lemma VotesCompose(e: Server, f: Server, g: Server, i: nat, j: nat, t: nat)
    requires Contiguous(e.log) && Contiguous(f.log) && Contiguous(g.log)
    requires t > e.currentTerm && t > f.currentTerm && WouldVoteFor(e, f, i, t) && WouldVoteFor(f, g, j, t)
    ensures WouldVoteFor(e, g, j, t)
  {
    hide HandleRequestVote;
    VoteMeans(e, VoteArgs(t, i, LastIndex(f.log), LastTerm(f.log)));
    VoteMeans(f, VoteArgs(t, j, LastIndex(g.log), LastTerm(g.log)));
    VoteMeans(e, VoteArgs(t, j, LastIndex(g.log), LastTerm(g.log)));
  }

  // ----- elections -----

  lemma ElectionMeans(s: Server, me: nat)
    requires Contiguous(s.log)
    ensures var (r, args) := StartElection(s, me); var last := s.log[|s.log| - 1];
            args == VoteArgs(s.currentTerm + 1, me, last.index, if last.index == 0 then 0 else last.term)
            && r == s.(role := Candidate, currentTerm := s.currentTerm + 1, votedFor := me,
                       tallies := s.tallies[s.currentTerm + 1 := Tally({}, 1)],
                       disk := Some(Durable(s.currentTerm + 1, me, s.log)))
  {
  }

  /** A granted vote of the candidate's own term counts once for each peer; the peer is leader as soon as
      the count, itself included, is more than half, and starts with nothing known of anybody. */
  lemma VoteCountMeans(s: Server, peers: nat, peer: nat, args: VoteArgs, reply: VoteReply)
    requires Contiguous(s.log)
    ensures var r := HandleVoteReply(s, peers, peer, args, reply);
            if reply.term > s.currentTerm then
              r == s.(role := Follower, currentTerm := reply.term, votedFor := -1, disk := Some(Durable(reply.term, -1, s.log)))
            else if s.role == Candidate && reply.voteGranted && args.term == s.currentTerm
                    && args.term in s.tallies && peer !in s.tallies[args.term].recorded then
              var was, next := s.tallies[args.term], s.log[|s.log| - 1].index + 1;
              r.tallies == s.tallies[args.term := Tally(was.recorded + {peer}, was.count + 1)]
              && (r.role == Leader <==> was.count + 1 > peers / 2)
              && (if r.role == Leader then
                    (forall p: nat :: p < peers ==> p in r.nextIndex && r.nextIndex[p] == next && p in r.matchIndex && r.matchIndex[p] == 0)
                    && (forall p: nat :: p in r.nextIndex || p in r.matchIndex ==> p < peers)
                  else r.nextIndex == s.nextIndex && r.matchIndex == s.matchIndex && r.role == Candidate)
              && r == s.(tallies := r.tallies, role := r.role, nextIndex := r.nextIndex, matchIndex := r.matchIndex)
            else r == s
  {
  }

  // ----- Start -----

  lemma StartMeans(s: Server, command: Command)
    requires Contiguous(s.log)
    ensures var (r, index, term, isLeader) := StartCommand(s, command);
            index == s.log[|s.log| - 1].index + 1 && term == s.currentTerm && isLeader == (s.role == Leader)
            && r == if isLeader then
                      s.(log := s.log + [Entry(term, index, command)], disk := Some(Durable(term, s.votedFor, r.log)))
                    else s
  {
  }

  // ----- entries -----

  /** The log has an entry of this index. */
  predicate InLog(log: seq<Entry>, index: int)
    requires Contiguous(log)
  {
    log[0].index <= index <= log[|log| - 1].index
  }

  function At(log: seq<Entry>, index: int): Entry
    requires Contiguous(log) && InLog(log, index)
  {
    log[index - log[0].index]
  }

  lemma EntryMeans(log: seq<Entry>, index: int)
    requires Contiguous(log)
    ensures GetLogEntry(log, index) == if InLog(log, index) then Some(At(log, index)) else None
    ensures TermAt(log, index) == if InLog(log, index) then At(log, index).term else 0
    ensures InLog(log, index) ==> At(log, index).index == index
  {
  }

  // ----- AppendEntries -----

  /** The entry before those sent is there with the sender's term, or there is none before them. */
  predicate Continues(log: seq<Entry>, args: AppendArgs)
    requires Contiguous(log)
  {
    args.prevLogIndex == 0 || (InLog(log, args.prevLogIndex) && At(log, args.prevLogIndex).term == args.prevLogTerm)
  }

  lemma ContinuesMeans(log: seq<Entry>, args: AppendArgs)
    requires Contiguous(log)
    ensures PrevMatches(log, args) == Continues(log, args)
  {
    EntryMeans(log, args.prevLogIndex);
  }

  /** The first position of a term in the log. */
  ghost predicate FirstOf(log: seq<Entry>, term: nat, f: int) {
    0 <= f < |log| && log[f].term == term && forall j :: 0 <= j < f ==> log[j].term != term
  }

  lemma {:induction false} FirstIndexMeans(log: seq<Entry>, term: nat)
    ensures (forall j :: 0 <= j < |log| ==> log[j].term != term) ==> FirstIndexOfTerm(log, term) == 0
    ensures forall f :: FirstOf(log, term, f) ==> FirstIndexOfTerm(log, term) == log[f].index
    decreases |log|
  {
    if log != [] && log[0].term != term {
      FirstIndexMeans(log[1..], term);
      forall f | FirstOf(log, term, f) ensures FirstOf(log[1..], term, f - 1) {
        assert forall j :: 0 <= j < |log| - 1 ==> log[1..][j] == log[j + 1];
      }
    }
  }

  /** What a rejection says: the end of a log that is too short or cut off there; else the term that
      stands there and the index at which it starts. */
  lemma RejectionMeans(term: nat, log: seq<Entry>, prev: nat)
    requires Contiguous(log)
    ensures var reply := Rejection(term, log, prev);
            reply.term == term && !reply.success
            && if InLog(log, prev) then
                 reply.conflictTerm == At(log, prev).term
                 && forall f :: FirstOf(log, At(log, prev).term, f) ==> reply.conflictIndex == log[f].index
               else reply.conflictTerm == -1 && reply.conflictIndex == log[|log| - 1].index + 1
  {
    EntryMeans(log, prev);
    if InLog(log, prev) { FirstIndexMeans(log, At(log, prev).term); }
  }

  // ----- the two loops -----

  /** The sent entry at k is not in the log, or stands against the one that is. */
  predicate IsNew(log: seq<Entry>, e: Entry)
    requires Contiguous(log)
  {
    e.index > log[|log| - 1].index || (InLog(log, e.index) && At(log, e.index).term != e.term)
  }

  /** Position c is the first of the entries that is new to the log; there is none if c is their number. */
  ghost predicate FirstNew(log: seq<Entry>, entries: seq<Entry>, c: nat)
    requires Contiguous(log)
  {
    c <= |entries| && (forall j :: 0 <= j < c ==> !IsNew(log, entries[j])) && (c < |entries| ==> IsNew(log, entries[c]))
  }

  /** The log up to entry c, then the entries from c on; or the log, if no entry is new. */
  ghost predicate SplicedAt(log: seq<Entry>, entries: seq<Entry>, c: nat, after: seq<Entry>)
    requires Contiguous(log)
  {
    if c >= |entries| then c == |entries| && after == log
    else log[0].index < entries[c].index <= log[0].index + |log|
         && after == log[..entries[c].index - log[0].index] + entries[c..]
  }

  /** What a log becomes that is sent entries. */
  ghost predicate Spliced(log: seq<Entry>, entries: seq<Entry>, after: seq<Entry>)
    requires Contiguous(log)
  {
    forall c: nat :: FirstNew(log, entries, c) ==> SplicedAt(log, entries, c, after)
  }

  lemma SplicedBy(log: seq<Entry>, args: AppendArgs)
    requires Contiguous(log) && AppendArgsOk(log, args) && PrevMatches(log, args)
    ensures DeleteConflicts(log, args.entries) != []
    ensures Spliced(log, args.entries, AppendNew(DeleteConflicts(log, args.entries), args.entries))
  {
    hide FirstNew, Contiguous, AppendArgsOk, Continues, PrevMatches;
    ContinuesMeans(log, args);
    AppendKeepsContiguous(log, args);
    forall c: nat | FirstNew(log, args.entries, c)
      ensures SplicedAt(log, args.entries, c, AppendNew(DeleteConflicts(log, args.entries), args.entries))
    {
      TakesExactly(log, args, c);
    }
  }

  lemma {:induction false} FirstNewExists(log: seq<Entry>, entries: seq<Entry>) returns (c: nat)
    requires Contiguous(log)
    ensures FirstNew(log, entries, c)
    decreases |entries|
  {
    if entries == [] || IsNew(log, entries[0]) {
      c := 0;
    } else {
      var d := FirstNewExists(log, entries[1..]);
      c := d + 1;
      forall j | 0 <= j < c ensures !IsNew(log, entries[j]) {
        if j > 0 { assert entries[j] == entries[1..][j - 1]; }
      }
    }
  }

  lemma {:induction false} BeyondStays(log: seq<Entry>, entries: seq<Entry>, start: nat)
    requires Contiguous(log) && Consecutive(entries, start) && start > log[|log| - 1].index
    ensures DeleteConflicts(log, entries) == log
    decreases |entries|
  {
    if entries != [] {
      EntryMeans(log, entries[0].index);
      assert Consecutive(entries[1..], start + 1);
      BeyondStays(log, entries[1..], start + 1);
    }
  }

  lemma {:induction false} BeyondAppends(log: seq<Entry>, entries: seq<Entry>)
    requires Contiguous(log) && Consecutive(entries, log[|log| - 1].index + 1)
    ensures AppendNew(log, entries) == log + entries && Contiguous(log + entries)
    decreases |entries|
  {
    if entries != [] {
      assert Consecutive(entries[1..], entries[0].index + 1);
      assert (log + [entries[0]])[0] == log[0];
      BeyondAppends(log + [entries[0]], entries[1..]);
      assert log + [entries[0]] + entries[1..] == log + entries;
    } else {
      assert log + entries == log;
    }
  }

  /** Entries that all lie beyond the end are appended ... */
  lemma NewBeyond(log: seq<Entry>, entries: seq<Entry>, start: nat)
    requires Contiguous(log) && Consecutive(entries, start) && start == log[|log| - 1].index + 1 && entries != []
    ensures DeleteConflicts(log, entries) == log && SplicedAt(log, entries, 0, AppendNew(log, entries))
  {
    BeyondStays(log, entries, start);
    BeyondAppends(log, entries);
    assert log[..|log|] == log && entries[0..] == entries;
  }

  /** ... and an entry of another term takes the place of the one there, and of all after it. */
  lemma NewConflicts(log: seq<Entry>, entries: seq<Entry>, start: nat)
    requires Contiguous(log) && Consecutive(entries, start) && entries != [] && log[0].index < start <= log[|log| - 1].index
    requires IsNew(log, entries[0])
    ensures var d := DeleteConflicts(log, entries); d != [] && SplicedAt(log, entries, 0, AppendNew(d, entries))
  {
    var e := entries[0];
    EntryMeans(log, e.index);
    var kept := log[..e.index - log[0].index];
    assert kept[0] == log[0];
    assert Consecutive(entries[1..], start + 1);
    BeyondStays(kept, entries[1..], start + 1);
    BeyondAppends(kept, entries);
    assert entries[0..] == entries;
  }

  lemma SplicedRest(log: seq<Entry>, entries: seq<Entry>, c: nat, after: seq<Entry>)
    requires Contiguous(log) && 0 < c && entries != [] && SplicedAt(log, entries[1..], c - 1, after)
    ensures SplicedAt(log, entries, c, after)
  {
    if c < |entries| { assert entries[1..][c - 1..] == entries[c..]; }
  }

  /** The entries do not contradict the start of the log. */
  ghost predicate SameStart(log: seq<Entry>, entries: seq<Entry>)
    requires Contiguous(log)
  {
    forall k :: 0 <= k < |entries| && entries[k].index == log[0].index ==> entries[k].term == log[0].term
  }

  lemma NewBeyondStart(log: seq<Entry>, entries: seq<Entry>, start: nat)
    requires Contiguous(log) && Consecutive(entries, start) && SameStart(log, entries) && entries != []
    requires IsNew(log, entries[0]) && start <= log[|log| - 1].index + 1
    ensures log[0].index < start == entries[0].index
  {
  }

  lemma RestStart(log: seq<Entry>, entries: seq<Entry>, start: nat)
    requires Contiguous(log) && Consecutive(entries, start) && SameStart(log, entries) && entries != []
    ensures Consecutive(entries[1..], start + 1) && SameStart(log, entries[1..]) && entries[0].index == start
  {
    assert forall k :: 0 <= k < |entries[1..]| ==> entries[1..][k] == entries[k + 1];
  }

  /** Against a log whose start it does not contradict: nothing changes up to the first new entry, and
      from there on the log is the entries. */
  lemma {:induction false} LoopsMean(log: seq<Entry>, entries: seq<Entry>, start: nat, c: nat)
    requires Contiguous(log) && Consecutive(entries, start) && start <= log[|log| - 1].index + 1
    requires SameStart(log, entries) && FirstNew(log, entries, c)
    ensures DeleteConflicts(log, entries) != []
    ensures SplicedAt(log, entries, c, AppendNew(DeleteConflicts(log, entries), entries))
    decreases |entries|
  {
    if entries != [] {
      hide SplicedAt, SameStart, Consecutive, DeleteConflicts, AppendNew, GetLogEntry;
      RestStart(log, entries, start);
      if IsNew(log, entries[0]) {
        NewBeyondStart(log, entries, start);
        if start > log[|log| - 1].index { NewBeyond(log, entries, start); } else { NewConflicts(log, entries, start); }
      } else {
        LoopsSkip(log, entries, start);
        RestNew(log, entries, c);
        LoopsMean(log, entries[1..], start + 1, c - 1);
        SplicedRest(log, entries, c, AppendNew(DeleteConflicts(log, entries), entries[1..]));
      }
    }
  }

  /** Both loops pass over an entry that is not new. */
  lemma LoopsSkip(log: seq<Entry>, entries: seq<Entry>, start: nat)
    requires Contiguous(log) && Consecutive(entries, start) && start <= log[|log| - 1].index + 1
    requires SameStart(log, entries) && entries != [] && !IsNew(log, entries[0])
    ensures var d := DeleteConflicts(log, entries[1..]);
            d != [] && DeleteConflicts(log, entries) == d && AppendNew(d, entries) == AppendNew(d, entries[1..])
  {
    EntryMeans(log, entries[0].index);
    RestStart(log, entries, start);
    DeletesAfter(log, entries[1..], start + 1);
    hide Contiguous, GetLogEntry, DeleteFrom;
  }

  lemma RestNew(log: seq<Entry>, entries: seq<Entry>, c: nat)
    requires Contiguous(log) && FirstNew(log, entries, c) && entries != [] && !IsNew(log, entries[0])
    ensures c > 0 && FirstNew(log, entries[1..], c - 1)
  {
    forall j | 0 <= j < c - 1 ensures !IsNew(log, entries[1..][j]) { assert entries[1..][j] == entries[j + 1]; }
  }

  /** Nothing before the first entry sent is deleted. */
  lemma DeletesAfter(log: seq<Entry>, entries: seq<Entry>, start: nat)
    requires Contiguous(log) && Consecutive(entries, start) && start <= log[|log| - 1].index + 1
    requires SameStart(log, entries)
    ensures var d := DeleteConflicts(log, entries); d != [] && Contiguous(d) && LastIndex(d) + 1 >= start
  {
    DeleteConflictsIsPrefix(log, entries, start);
  }

  // ----- committing and applying -----

  ghost predicate HandsOver(log: seq<Entry>, index: nat, msg: ApplyMsg)
    requires Contiguous(log)
  {
    InLog(log, index) && msg == ApplyMsg(index, At(log, index).command)
  }

  /** Messages for the entries of the log at lo, lo + 1, ... */
  ghost predicate Messages(log: seq<Entry>, lo: nat, msgs: seq<ApplyMsg>)
    requires Contiguous(log)
  {
    forall k :: 0 <= k < |msgs| ==> HandsOver(log, lo + k, msgs[k])
  }

  /** What a server that has applied `applied` and knows that the log is committed to `commit` hands over:
      each entry it still has between the two, once, in order. */
  ghost predicate HandsOn(log: seq<Entry>, applied: nat, commit: nat, msgs: seq<ApplyMsg>)
    requires Contiguous(log)
  {
    var lo := Greater(applied + 1, log[0].index);
    |msgs| == (if lo <= commit then commit - lo + 1 else 0) && Messages(log, lo, msgs)
  }

  lemma MoreMessages(log: seq<Entry>, lo: nat, msgs: seq<ApplyMsg>)
    requires Contiguous(log) && InLog(log, lo) && Messages(log, lo + 1, msgs)
    ensures Messages(log, lo, [ApplyMsg(lo, At(log, lo).command)] + msgs)
  {
    var all := [ApplyMsg(lo, At(log, lo).command)] + msgs;
    assert HandsOver(log, lo, all[0]);
    hide HandsOver;
    forall k | 0 <= k < |all| ensures HandsOver(log, lo + k, all[k]) {
      if k > 0 {
        assert all[k] == msgs[k - 1] && lo + k == lo + 1 + (k - 1);
      }
    }
  }

  /** What one turn of the apply loop hands over. */
  function Handed(log: seq<Entry>, index: nat): seq<ApplyMsg>
    requires Contiguous(log)
  {
    if InLog(log, index) then [ApplyMsg(index, At(log, index).command)] else []
  }

  /** One more entry is applied: it is handed over if the log has it. */
  lemma HandsNext(log: seq<Entry>, applied: nat, commit: nat, rest: seq<ApplyMsg>)
    requires Contiguous(log) && applied < commit <= log[|log| - 1].index && HandsOn(log, applied + 1, commit, rest)
    ensures HandsOn(log, applied, commit, Handed(log, applied + 1) + rest)
  {
    hide Messages;
    if InLog(log, applied + 1) { MoreMessages(log, applied + 1, rest); } else { assert [] + rest == rest; }
  }

  lemma HandsNothing(log: seq<Entry>, applied: nat, commit: nat)
    requires Contiguous(log) && commit <= applied
    ensures HandsOn(log, applied, commit, [])
  {
  }

  lemma ApplyOne(s: Server)
    requires Contiguous(s.log) && s.commitIndex > s.lastApplied
    ensures var k := s.lastApplied + 1;
            ApplyLog(s) == ApplyLog(s.(lastApplied := k, applyCh := s.applyCh + Handed(s.log, k)))
  {
    EntryMeans(s.log, s.lastApplied + 1);
    hide Contiguous, GetLogEntry;
    assert s.applyCh + [] == s.applyCh;
  }

  lemma NothingToApply(s: Server)
    requires Contiguous(s.log) && s.commitIndex <= s.lastApplied
    ensures ApplyLog(s) == s
  {
  }

  /** The apply loop hands over just that. */
  lemma {:induction false} ApplyMeans(s: Server) returns (msgs: seq<ApplyMsg>)
    requires Contiguous(s.log) && s.commitIndex <= s.log[|s.log| - 1].index
    ensures ApplyLog(s) == s.(lastApplied := Greater(s.lastApplied, s.commitIndex), applyCh := s.applyCh + msgs)
    ensures HandsOn(s.log, s.lastApplied, s.commitIndex, msgs)
    decreases s.commitIndex - s.lastApplied
  {
    hide ApplyLog, HandsOn, Contiguous, Handed;
    if s.commitIndex > s.lastApplied {
      var k := s.lastApplied + 1;
      ApplyOne(s);
      var more := Handed(s.log, k);
      var rest := ApplyMeans(s.(lastApplied := k, applyCh := s.applyCh + more));
      msgs := more + rest;
      assert s.applyCh + more + rest == s.applyCh + msgs;
      HandsNext(s.log, s.lastApplied, s.commitIndex, rest);
    } else {
      msgs := [];
      NothingToApply(s);
      HandsNothing(s.log, s.lastApplied, s.commitIndex);
      assert s.applyCh + [] == s.applyCh;
    }
  }

  /** How far a server that learns of LeaderCommit considers its log committed. */
  function CommitAfter(commitIndex: nat, args: AppendArgs): nat {
    var last := if args.entries == [] then args.prevLogIndex else args.entries[|args.entries| - 1].index;
    if args.leaderCommit <= commitIndex then commitIndex
    else if args.leaderCommit <= last then args.leaderCommit else last
  }

  lemma ApplySays(s: Server)
    requires Contiguous(s.log)
    ensures var r := ApplyLog(s);
            r == s.(lastApplied := Greater(s.lastApplied, s.commitIndex), applyCh := r.applyCh) && s.applyCh <= r.applyCh
            && (s.commitIndex <= s.log[|s.log| - 1].index ==>
                  HandsOn(s.log, s.lastApplied, s.commitIndex, r.applyCh[|s.applyCh|..]))
  {
    hide HandsOn, ApplyLog, GetLogEntry;
    ApplyChanges(s);
    if s.commitIndex <= s.log[|s.log| - 1].index {
      var msgs := ApplyMeans(s);
      assert (s.applyCh + msgs)[|s.applyCh|..] == msgs;
    }
  }

  lemma {:induction false} ApplyChanges(s: Server)
    requires Contiguous(s.log)
    ensures var r := ApplyLog(s);
            r == s.(lastApplied := Greater(s.lastApplied, s.commitIndex), applyCh := r.applyCh) && s.applyCh <= r.applyCh
    decreases s.commitIndex - s.lastApplied
  {
    hide GetLogEntry, Contiguous;
    if s.commitIndex > s.lastApplied {
      var t := s.(lastApplied := s.lastApplied + 1);
      ApplyChanges(match GetLogEntry(t.log, t.lastApplied)
                   case Some(e) => t.(applyCh := t.applyCh + [ApplyMsg(e.index, e.command)])
                   case None => t);
    }
  }

  lemma LearnMeans(s: Server, args: AppendArgs)
    requires Contiguous(s.log)
    ensures var r := AdvanceCommit(s, args);
            r == s.(commitIndex := CommitAfter(s.commitIndex, args),
                    lastApplied := if args.leaderCommit > s.commitIndex then Greater(s.lastApplied, r.commitIndex) else s.lastApplied,
                    applyCh := r.applyCh)
            && s.applyCh <= r.applyCh && (args.leaderCommit <= s.commitIndex ==> r.applyCh == s.applyCh)
  {
    ApplyChanges(s.(commitIndex := CommitAfter(s.commitIndex, args)));
  }

  /** Refused for an old term, with no hint; rejected when the log does not continue, with one; else
      accepted: then the log changes only from the first new entry on, and the commit index follows. */
  lemma AppendMeans(s: Server, args: AppendArgs, room: bool, c: nat)
    requires Contiguous(s.log) && (args.term >= s.currentTerm ==> AppendArgsOk(s.log, args) && FirstNew(s.log, args.entries, c))
    ensures var (r, reply) := HandleAppendEntries(s, args, room);
            (reply.success <==> args.term >= s.currentTerm && Continues(s.log, args))
            && reply.term == r.currentTerm == Greater(args.term, s.currentTerm)
            && (args.term < s.currentTerm ==> r == s && reply == AppendReply(s.currentTerm, false, 0, 0))
            && (args.term >= s.currentTerm && !reply.success ==> reply == Rejection(args.term, s.log, args.prevLogIndex))
            && (reply.success ==> reply.conflictIndex == reply.conflictTerm == 0)
            && r.votedFor == (if args.term > s.currentTerm then -1 else s.votedFor)
            && r.role == (if args.term > s.currentTerm || (args.term == s.currentTerm && s.role != Leader && room) then Follower else s.role)
    ensures var (r, reply) := HandleAppendEntries(s, args, room);
            if reply.success then
              c <= |args.entries| && (c < |args.entries| ==> s.log[0].index < args.entries[c].index <= s.log[0].index + |s.log|)
              && r.log == (if c == |args.entries| then s.log else s.log[..args.entries[c].index - s.log[0].index] + args.entries[c..])
              && r.commitIndex == CommitAfter(s.commitIndex, args) && r.disk == Some(Durable(r.currentTerm, r.votedFor, r.log))
            else r.log == s.log && r.commitIndex == s.commitIndex && r.applyCh == s.applyCh && r.lastApplied == s.lastApplied
    ensures var r := HandleAppendEntries(s, args, room).0;
            r.nextIndex == s.nextIndex && r.matchIndex == s.matchIndex && r.tallies == s.tallies
  {
    hide AppendArgsOk, AppendNew, DeleteConflicts, AdvanceCommit, Rejection, Continues, PrevMatches, FirstNew, Contiguous;
    ContinuesMeans(s.log, args);
    if args.term >= s.currentTerm { RejectionMeans(args.term, s.log, args.prevLogIndex); }
    if args.term >= s.currentTerm && Continues(s.log, args) {
      AppendKeepsContiguous(s.log, args);
      TakesExactly(s.log, args, c);
      var s1 := CheckCurrentTerm(s, args.term);
      var s2 := if s1.role != Leader && room then s1.(role := Follower) else s1;
      LearnMeans(Persist(s2.(log := AppendNew(DeleteConflicts(s2.log, args.entries), args.entries))), args);
    }
  }

  lemma TakesExactly(log: seq<Entry>, args: AppendArgs, c: nat)
    requires Contiguous(log) && AppendArgsOk(log, args) && Continues(log, args) && FirstNew(log, args.entries, c)
    ensures DeleteConflicts(log, args.entries) != []
    ensures SplicedAt(log, args.entries, c, AppendNew(DeleteConflicts(log, args.entries), args.entries))
  {
    hide FirstNew, SplicedAt, DeleteConflicts, AppendNew;
    LoopsMean(log, args.entries, args.prevLogIndex + 1, c);
  }

  // ----- the leader -----

  /** What is sent to a peer is everything after the entry before its nextIndex, with that entry's term and
      the leader's commit index; the snapshot is fallen back on when that entry or the next is cut off. */
  lemma PrepareMeans(s: Server, me: nat, peer: nat)
    requires Contiguous(s.log)
    ensures var p, next, last := PrepareAppend(s, me, peer), IndexOf(s.nextIndex, peer), s.log[|s.log| - 1].index;
            if s.role != Leader then p == NotLeader
            else if (next == 1 || InLog(s.log, next - 1)) && (next > last || InLog(s.log, next)) then
              p == Send(AppendArgs(s.currentTerm, me, next - 1, if next == 1 then 0 else At(s.log, next - 1).term,
                                   if next > last then [] else s.log[next - s.log[0].index..], s.commitIndex))
            else p == NeedsSnapshot
  {
    hide GetLogEntry, TermAt;
    EntryMeans(s.log, IndexOf(s.nextIndex, peer) - 1);
    EntryMeans(s.log, IndexOf(s.nextIndex, peer));
  }

  predicate HasTerm(log: seq<Entry>, index: int, term: int)
    requires Contiguous(log)
  {
    (if InLog(log, index) then At(log, index).term else 0) == term
  }

  ghost predicate NoTerm(log: seq<Entry>, lo: nat, hi: nat, term: int)
    requires Contiguous(log)
  {
    forall k :: lo <= k < hi ==> !HasTerm(log, k, term)
  }

  /** The first entries of a term, from index 1 on, are those from i up to j. */
  ghost predicate FirstRun(log: seq<Entry>, term: int, i: nat, j: nat)
    requires Contiguous(log)
  {
    1 <= i < j <= log[|log| - 1].index + 1 && NoTerm(log, 1, i, term)
    && (forall k :: i <= k < j ==> HasTerm(log, k, term)) && (j <= log[|log| - 1].index ==> !HasTerm(log, j, term))
  }

  lemma {:induction false} FindsTerm(log: seq<Entry>, term: int, from: nat)
    requires Contiguous(log) && from <= log[|log| - 1].index + 1
    ensures var i := FindTerm(log, term, from);
            NoTerm(log, from, i, term) && (i <= log[|log| - 1].index ==> HasTerm(log, i, term))
    decreases log[|log| - 1].index + 1 - from
  {
    EntryMeans(log, from);
    if from <= log[|log| - 1].index && !HasTerm(log, from, term) { FindsTerm(log, term, from + 1); }
  }

  lemma {:induction false} SkipsTerm(log: seq<Entry>, term: int, from: nat)
    requires Contiguous(log) && from <= log[|log| - 1].index + 1
    ensures var j := SkipTerm(log, term, from);
            (forall k :: from <= k < j ==> HasTerm(log, k, term)) && (j <= log[|log| - 1].index ==> !HasTerm(log, j, term))
    decreases log[|log| - 1].index + 1 - from
  {
    EntryMeans(log, from);
    if from <= log[|log| - 1].index && HasTerm(log, from, term) { SkipsTerm(log, term, from + 1); }
  }

  /** After a rejection the leader looks next past its own first run of the conflicting term; at the
      follower's hint, if it has no such entry or the rejection named no term. */
  lemma BackupMeans(log: seq<Entry>, reply: AppendReply)
    requires Contiguous(log)
    ensures reply.conflictTerm == -1 || NoTerm(log, 1, log[|log| - 1].index + 1, reply.conflictTerm) ==>
              Backup(log, reply) == reply.conflictIndex
    ensures forall i: nat, j: nat :: reply.conflictTerm != -1 && FirstRun(log, reply.conflictTerm, i, j) ==>
              Backup(log, reply) == j
  {
    hide HasTerm, FindTerm, SkipTerm, FirstRun;
    var term := reply.conflictTerm;
    if term != -1 {
      FindsTerm(log, term, 1);
      forall i: nat, j: nat | FirstRun(log, term, i, j) ensures Backup(log, reply) == j { RunFound(log, term, i, j); }
    }
  }

  lemma RunFound(log: seq<Entry>, term: int, i: nat, j: nat)
    requires Contiguous(log) && FirstRun(log, term, i, j)
    ensures FindTerm(log, term, 1) == i <= log[|log| - 1].index && SkipTerm(log, term, i) == j
  {
    hide HasTerm, FindTerm, SkipTerm;
    FindsTerm(log, term, 1);
    assert HasTerm(log, i, term);
    SkipsTerm(log, term, i);
  }

  /** The peers known to hold an entry at target, the server itself included. */
  function Holders(matchIndex: map<nat, nat>, me: nat, peers: nat, target: nat): set<nat> {
    set p: nat | p < peers && (p == me || (p in matchIndex && matchIndex[p] >= target))
  }

  lemma HoldersStep(matchIndex: map<nat, nat>, me: nat, n: nat, target: nat)
    ensures var all, fewer := Holders(matchIndex, me, n + 1, target), Holders(matchIndex, me, n, target);
            n !in fewer && all == if n == me || (n in matchIndex && matchIndex[n] >= target) then fewer + {n} else fewer
  {
  }

  lemma {:induction false} CountIsHolders(matchIndex: map<nat, nat>, me: nat, peers: nat, target: nat)
    requires target > 0 && (me in matchIndex ==> matchIndex[me] == 0)
    ensures |Holders(matchIndex, me, peers, target)| == CountMatches(matchIndex, target, peers) + if me < peers then 1 else 0
    decreases peers
  {
    hide Holders;
    if peers > 0 {
      CountIsHolders(matchIndex, me, peers - 1, target);
      HoldersStep(matchIndex, me, peers - 1, target);
    } else {
      NoHolders(matchIndex, me, target);
    }
  }

  lemma NoHolders(matchIndex: map<nat, nat>, me: nat, target: nat)
    ensures Holders(matchIndex, me, 0, target) == {}
  {
  }

  ghost predicate Successful(s: Server, args: AppendArgs, reply: AppendReply) {
    args.term >= s.currentTerm >= reply.term && s.role != Follower && reply.success
  }

  /** A success that brings an entry of the current term within reach commits it if and only if more than
      half of the cluster, the leader included, hold it. */
  lemma CommitIff(s: Server, me: nat, peers: nat, peer: nat, args: AppendArgs, reply: AppendReply)
    requires Contiguous(s.log) && Successful(s, args, reply) && peer != me && me < peers
    requires me in s.matchIndex ==> s.matchIndex[me] == 0
    ensures var r, target := HandleAppendReply(s, peers, peer, args, reply), args.prevLogIndex + |args.entries|;
            r.nextIndex == s.nextIndex[peer := target + 1] && r.matchIndex == s.matchIndex[peer := target]
            && r.commitIndex
               == (if target > s.commitIndex && (if InLog(s.log, target) then At(s.log, target).term else 0) == s.currentTerm
                      && |Holders(r.matchIndex, me, peers, target)| > peers / 2
                   then target else s.commitIndex)
            && r.log == s.log && r.currentTerm == s.currentTerm && r.role == s.role && r.votedFor == s.votedFor && r.disk == s.disk
  {
    var target := args.prevLogIndex + |args.entries|;
    var matchIndex := s.matchIndex[peer := target];
    EntryMeans(s.log, target);
    hide Contiguous, CountMatches, ApplyLog, TermAt;
    if target > s.commitIndex { CountIsHolders(matchIndex, me, peers, target); }
    ApplyChanges(s.(nextIndex := s.nextIndex[peer := target + 1], matchIndex := matchIndex, commitIndex := target));
  }

  /** Nothing but a success commits; a rejection moves only where the leader looks next, a higher term
      demotes, and an answer to an earlier term does nothing. */
  lemma OtherRepliesMean(s: Server, peers: nat, peer: nat, args: AppendArgs, reply: AppendReply)
    requires Contiguous(s.log) && !Successful(s, args, reply)
    ensures var r := HandleAppendReply(s, peers, peer, args, reply);
            if args.term < s.currentTerm then r == s
            else if reply.term > s.currentTerm then
              r == s.(role := Follower, currentTerm := reply.term, votedFor := -1, disk := Some(Durable(reply.term, -1, s.log)))
            else if s.role == Follower then r == s
            else r == s.(nextIndex := s.nextIndex[peer := Backup(s.log, reply)])
  {
    hide Contiguous, Backup;
  }
}
