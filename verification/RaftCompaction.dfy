/** A compacted log refines the full one: cut off at an index this or an earlier incarnation applied,
    the accessors and the handlers compute on the rest what they compute on the whole. */
module RaftCompaction {
  import opened Commands
  import opened RaftServer
  import opened RaftReconcile
  import opened RaftReplication
  import opened RaftBackup

  // ----- the log -----

  ghost predicate Cut(full: seq<Entry>, b: nat) {
    Uncompacted(full) && b < |full|
  }

  /** Every accessor agrees with the full log from the cut on, and finds nothing before it. */
  lemma ReadsAgree(full: seq<Entry>, b: nat, i: int)
    requires Cut(full, b)
    ensures Contiguous(full) && Contiguous(full[b..])
    ensures LastIndex(full[b..]) == LastIndex(full) == |full| - 1 && LastTerm(full[b..]) == LastTerm(full)
    ensures GetLogEntry(full[b..], i) == if i < b then None else GetLogEntry(full, i)
    ensures b <= i < |full| ==> GetLogEntry(full, i) == Some(full[i]) && full[i].index == i
  {
  }

  /** So do the slices that replication and truncation take. */
  lemma AccessorsAgree(full: seq<Entry>, b: nat, i: int)
    requires Cut(full, b)
    ensures Contiguous(full) && Contiguous(full[b..])
    ensures LastIndex(full[b..]) == LastIndex(full) == |full| - 1 && LastTerm(full[b..]) == LastTerm(full)
    ensures GetLogEntry(full[b..], i) == if i < b then None else GetLogEntry(full, i)
    ensures b <= i <= |full| ==> EntriesFrom(full[b..], i) == EntriesFrom(full, i)
    ensures b < i <= |full| ==> DeleteFrom(full[b..], i) == DeleteFrom(full, i)[b..]
  {
    if b <= i <= |full| { assert full[b..][i - b..] == full[i..]; }
    if b < i < |full| { assert full[b..][..i - b] == full[..i][b..]; }
  }

  /** Compacting a compacted log further is cutting the full log further. */
  lemma CutsCompose(full: seq<Entry>, b: nat, index: nat)
    requires Cut(full, b) && b <= index < |full|
    ensures Contiguous(full[b..]) && EntriesFrom(full[b..], index) == full[index..]
    ensures GetLogEntry(full[b..], index) == Some(full[index])
  {
    AccessorsAgree(full, b, index);
  }

  ghost predicate AgreesUpTo(full: seq<Entry>, b: nat, entries: seq<Entry>) {
    forall k :: 0 <= k < |entries| && entries[k].index <= b && entries[k].index < |full|
                ==> entries[k].term == full[entries[k].index].term
  }

  /** One turn of the truncating loop. */
  lemma CutDeletesOne(full: seq<Entry>, b: nat, entries: seq<Entry>, next: seq<Entry>)
    requires Cut(full, b) && AgreesUpTo(full, b, entries) && entries != [] && Contiguous(full)
    requires var i := entries[0].index; var e := GetLogEntry(full, i);
             next == if e.Some? && e.value.term != entries[0].term then DeleteFrom(full, i) else full
    ensures Cut(next, b) && AgreesUpTo(next, b, entries[1..]) && next <= full
  {
    forall k | 0 <= k < |entries[1..]| && entries[1..][k].index <= b && entries[1..][k].index < |next|
      ensures entries[1..][k].term == next[entries[1..][k].index].term
    {
      assert entries[1..][k] == entries[k + 1];
    }
  }

  lemma {:induction false} CutDeletes(full: seq<Entry>, b: nat, entries: seq<Entry>)
    requires Cut(full, b) && AgreesUpTo(full, b, entries)
    ensures Contiguous(full) && Contiguous(full[b..])
    ensures var d := DeleteConflicts(full, entries);
            |d| > b && d <= full && DeleteConflicts(full[b..], entries) == d[b..]
    decreases |entries|
  {
    AccessorsAgree(full, b, 0);
    if entries != [] {
      var i := entries[0].index;
      AccessorsAgree(full, b, i);
      var e := GetLogEntry(full, i);
      var next := if e.Some? && e.value.term != entries[0].term then DeleteFrom(full, i) else full;
      CutDeletesOne(full, b, entries, next);
      CutDeletes(next, b, entries[1..]);
    }
  }

  lemma {:induction false} CutAppends(d: seq<Entry>, b: nat, entries: seq<Entry>)
    requires b < |d|
    ensures |AppendNew(d, entries)| > b && AppendNew(d, entries)[b..] == AppendNew(d[b..], entries)
    decreases |entries|
  {
    if entries != [] {
      if LastIndex(d) < entries[0].index {
        assert (d + [entries[0]])[b..] == d[b..] + [entries[0]];
        CutAppends(d + [entries[0]], b, entries[1..]);
      } else {
        CutAppends(d, b, entries[1..]);
      }
    }
  }

  /** Looking only from the cut on, the first index of a term is the later of the two. */
  lemma {:induction false} CutFirstIndex(full: seq<Entry>, b: nat, term: nat, at: nat)
    requires b <= at < |full| && full[at].term == term && full[0].index + b == full[b].index
    requires forall k :: 0 <= k < |full| ==> full[k].index == full[0].index + k
    requires forall j, k :: 0 <= j <= k < |full| ==> full[j].term <= full[k].term
    ensures var f := FirstIndexOfTerm(full, term);
            FirstIndexOfTerm(full[b..], term) == if f < full[b].index then full[b].index else f
    ensures full[0].index <= FirstIndexOfTerm(full, term) <= full[at].index
    decreases |full|
  {
    if b == 0 {
      assert full[0..] == full;
      if full[0].term != term { CutFirstIndex(full[1..], 0, term, at - 1); }
    } else if full[0].term == term {
      assert full[0].term <= full[b].term <= full[at].term;
    } else {
      assert full[1..][b - 1..] == full[b..];
      CutFirstIndex(full[1..], b - 1, term, at - 1);
    }
  }

  // ----- the server -----

  function Later(i: nat, j: nat): nat { if i < j then j else i }

  /** Messages for the entries of `full` at lo, lo + 1, ..., hi - 1. */
  function Messages(full: seq<Entry>, lo: nat, hi: nat): seq<ApplyMsg>
    requires hi <= |full|
  {
    if hi <= lo then [] else Messages(full, lo, hi - 1) + [ApplyMsg(hi - 1, full[hi - 1].command)]
  }

  lemma {:induction false} MessagesStay(a: seq<Entry>, b: seq<Entry>, lo: nat, hi: nat)
    requires hi <= |a| && hi <= |b| && a[..hi] == b[..hi]
    ensures Messages(a, lo, hi) == Messages(b, lo, hi)
    decreases hi
  {
    if hi > lo {
      assert a[..hi - 1] == a[..hi][..hi - 1] == b[..hi][..hi - 1] == b[..hi - 1];
      assert a[hi - 1] == a[..hi][hi - 1] == b[hi - 1];
      MessagesStay(a, b, lo, hi - 1);
    }
  }

  function TrimDisk(disk: Option<Durable>, b: nat): Option<Durable>
    requires disk.Some? ==> b <= |disk.value.log|
  {
    match disk
    case None => None
    case Some(d) => Some(d.(log := d.log[b..]))
  }

  /** The full server f as it is when this incarnation was started from a log that began at `from`
      and its log, in memory and on disk, now begins at b: the same in all but the log and what it
      has handed over, which is the entries from max(1, from) on. */
  function View(f: Server, from: nat, b: nat): Server
    requires b <= |f.log| && (f.disk.Some? ==> b <= |f.disk.value.log|) && f.lastApplied < |f.log|
  {
    f.(log := f.log[b..], disk := TrimDisk(f.disk, b), applyCh := Messages(f.log, Later(from, 1), f.lastApplied + 1))
  }

  /** An incarnation cuts only at indices it has itself applied. */
  ghost predicate MayView(f: Server, from: nat, b: nat) {
    Cut(f.log, b) && b < |f.log| && (f.disk.Some? ==> b <= |f.disk.value.log|)
    && from <= b <= Later(from, f.lastApplied) && f.lastApplied <= f.commitIndex < |f.log|
  }

  lemma Looks(f: Server, from: nat, b: nat)
    requires MayView(f, from, b)
    ensures Cut(f.log, b) && Cut(f.log, 0) && Contiguous(f.log) && Contiguous(f.log[b..])
    ensures b < |f.log| && (f.disk.Some? ==> b <= |f.disk.value.log|)
    ensures f.lastApplied <= f.commitIndex < |f.log|
    ensures var g := View(f, from, b);
            g.log == f.log[b..] && g.disk == TrimDisk(f.disk, b)
            && g == f.(log := g.log, disk := g.disk, applyCh := g.applyCh)
  {
  }

  /** Compacting the cut server at an applied index cuts the persisted full one there. */
  lemma ViewCompact(f: Server, from: nat, b: nat, index: nat)
    requires MayView(f, from, b) && b <= index <= f.lastApplied
    ensures Contiguous(f.log[b..]) && f.log[b..][0].index <= index <= LastIndex(f.log[b..])
    ensures MayView(Persist(f), from, index) && Compact(View(f, from, b), index) == View(Persist(f), from, index)
  {
    hide Contiguous, Uncompacted, Messages, EntriesFrom, LastIndex;
    CutsCompose(f.log, b, index);
    ReadsAgree(f.log, b, index);
    CutThere(f.log, b, index);
  }

  lemma CutThere(full: seq<Entry>, b: nat, index: nat)
    requires Cut(full, b) && b <= index < |full|
    ensures full[b..][0].index == b && Cut(full, index)
  {
  }

  /** Restarted from its cut log, a server is the view of the restarted full one. */
  lemma ViewBoot(f: Server, from: nat, b: nat)
    requires MayView(f, from, b) && f.disk.Some? && f.disk.value.log == f.log
    ensures MayView(Boot(f.disk), b, b) && Boot(View(f, from, b).disk) == View(Boot(f.disk), b, b)
  {
    assert Messages(f.log, Later(b, 1), 1) == [];
  }

  lemma ViewCheckTerm(f: Server, from: nat, b: nat, t: nat)
    requires MayView(f, from, b)
    ensures var r := CheckCurrentTerm(f, t);
            MayView(r, from, b) && r.log == f.log && CheckCurrentTerm(View(f, from, b), t) == View(r, from, b)
  {
    hide Messages;
  }

  // ----- applying -----

  function Applied(f: Server): Server
    requires f.lastApplied + 1 < |f.log|
  {
    var k := f.lastApplied + 1;
    f.(lastApplied := k, applyCh := f.applyCh + [ApplyMsg(k, f.log[k].command)])
  }

  /** One turn of the apply loop. */
  lemma ViewApplyOne(f: Server, from: nat, b: nat)
    requires MayView(f, from, b) && f.commitIndex > f.lastApplied
    ensures MayView(Applied(f), from, b)
    ensures var k := f.lastApplied + 1;
            View(Applied(f), from, b)
            == if k < b then View(f, from, b).(lastApplied := k)
               else View(f, from, b).(lastApplied := k,
                                      applyCh := View(f, from, b).applyCh + [ApplyMsg(k, f.log[k].command)])
  {
    hide Cut;
  }

  lemma NoTurn(s: Server)
    requires Contiguous(s.log) && s.commitIndex <= s.lastApplied
    ensures ApplyLog(s) == s
  {
  }

  lemma Turn(s: Server)
    requires Contiguous(s.log) && s.commitIndex > s.lastApplied
    ensures var k := s.lastApplied + 1;
            match GetLogEntry(s.log, k)
            case None => ApplyLog(s) == ApplyLog(s.(lastApplied := k))
            case Some(e) =>
              ApplyLog(s) == ApplyLog(s.(lastApplied := k, applyCh := s.applyCh + [ApplyMsg(e.index, e.command)]))
  {
    hide GetLogEntry, Contiguous;
  }

  /** The apply loop of the cut server skips in silence what its log does not hold, which is at most
      what an earlier incarnation had applied, and hands over the rest. */
  lemma {:induction false} ViewApply(f: Server, from: nat, b: nat)
    requires MayView(f, from, b)
    ensures Contiguous(f.log) && Contiguous(f.log[b..])
    ensures var r := ApplyLog(f);
            r.log == f.log && r.disk == f.disk && r.lastApplied == f.commitIndex == r.commitIndex
            && MayView(r, from, b) && ApplyLog(View(f, from, b)) == View(r, from, b)
    decreases f.commitIndex - f.lastApplied
  {
    hide Contiguous, Uncompacted, GetLogEntry, Cut, MayView, View, ApplyLog;
    Looks(f, from, b);
    if f.commitIndex > f.lastApplied {
      var k := f.lastApplied + 1;
      ReadsAgree(f.log, b, k);
      ReadsAgree(f.log, 0, k);
      ViewApplyOne(f, from, b);
      Turn(f);
      Turn(View(f, from, b));
      ViewApply(Applied(f), from, b);
    } else {
      NoTurn(f);
      NoTurn(View(f, from, b));
    }
  }

  // ----- elections and commands -----

  /** RequestVote never notices compaction. */
  lemma ViewRequestVote(f: Server, from: nat, b: nat, args: VoteArgs)
    requires MayView(f, from, b)
    ensures Contiguous(f.log) && Contiguous(f.log[b..])
    ensures var (r, reply) := HandleRequestVote(f, args);
            MayView(r, from, b) && HandleRequestVote(View(f, from, b), args) == (View(r, from, b), reply)
  {
    hide Contiguous, Uncompacted, Cut, LastIndex, LastTerm, CheckCurrentTerm, Messages;
    ReadsAgree(f.log, b, 0);
    ViewCheckTerm(f, from, b, args.term);
  }

  /** Nor does starting an election ... */
  lemma ViewElection(f: Server, from: nat, b: nat, me: nat)
    requires MayView(f, from, b)
    ensures Contiguous(f.log) && Contiguous(f.log[b..])
    ensures var (r, args) := StartElection(f, me);
            MayView(r, from, b) && StartElection(View(f, from, b), me) == (View(r, from, b), args)
  {
    hide Contiguous, Uncompacted, Cut, LastIndex, LastTerm, Messages;
    ReadsAgree(f.log, b, 0);
  }

  /** ... counting a vote and being promoted ... */
  lemma ViewVoteReply(f: Server, from: nat, b: nat, peers: nat, peer: nat, args: VoteArgs, reply: VoteReply)
    requires MayView(f, from, b)
    ensures Contiguous(f.log) && Contiguous(f.log[b..])
    ensures var r := HandleVoteReply(f, peers, peer, args, reply);
            MayView(r, from, b) && HandleVoteReply(View(f, from, b), peers, peer, args, reply) == View(r, from, b)
  {
    hide Contiguous, Uncompacted, Cut, LastIndex, LastTerm, CheckCurrentTerm, Messages, SameForAll;
    ReadsAgree(f.log, b, 0);
    ViewCheckTerm(f, from, b, reply.term);
  }

  /** ... or Start. */
  lemma ViewStart(f: Server, from: nat, b: nat, command: Command)
    requires MayView(f, from, b)
    ensures Contiguous(f.log) && Contiguous(f.log[b..])
    ensures var (r, index, term, isLeader) := StartCommand(f, command);
            MayView(r, from, b) && StartCommand(View(f, from, b), command) == (View(r, from, b), index, term, isLeader)
  {
    hide Contiguous, Uncompacted, Cut, MayView, View;
    Looks(f, from, b);
    ReadsAgree(f.log, b, 0);
    Longer(f.log, b, Entry(f.currentTerm, |f.log|, command), f.commitIndex + 1);
    ViewWrites(f, from, b, f.log + [Entry(f.currentTerm, |f.log|, command)]);
  }

  lemma Longer(full: seq<Entry>, b: nat, e: Entry, m: nat)
    requires Cut(full, b) && e.index == |full| && m <= |full|
    ensures (full + [e])[b..] == full[b..] + [e] && (full + [e])[..m] == full[..m] && Cut(full + [e], b)
  {
  }

  /** Writing a log that keeps what is committed. */
  lemma ViewWrites(f: Server, from: nat, b: nat, log: seq<Entry>)
    requires MayView(f, from, b) && Cut(log, b) && f.commitIndex < |log| && f.commitIndex < |f.log|
    requires log[..f.commitIndex + 1] == f.log[..f.commitIndex + 1]
    ensures b <= |log| && b <= |f.log|
    ensures var r := Persist(f.(log := log));
            MayView(r, from, b) && View(r, from, b) == Persist(View(f, from, b).(log := log[b..]))
  {
    hide Messages, Uncompacted;
    assert log[..f.lastApplied + 1] == log[..f.commitIndex + 1][..f.lastApplied + 1] == f.log[..f.lastApplied + 1];
    MessagesStay(f.log, log, Later(from, 1), f.lastApplied + 1);
  }

  // ----- AppendEntries -----

  lemma AgreesIsOk(full: seq<Entry>, b: nat, args: AppendArgs)
    requires Cut(full, b) && AgreesUpTo(full, b, args.entries) && AppendArgsOk(full, args)
    ensures AppendArgsOk(full[b..], args)
  {
  }

  lemma CutPrev(full: seq<Entry>, b: nat, args: AppendArgs)
    requires Cut(full, b)
    ensures Contiguous(full) && Contiguous(full[b..])
    ensures args.prevLogIndex == 0 || args.prevLogIndex >= b ==> PrevMatches(full[b..], args) == PrevMatches(full, args)
    ensures 0 < args.prevLogIndex < b ==>
              !PrevMatches(full[b..], args)
              && forall t: nat :: Rejection(t, full[b..], args.prevLogIndex) == AppendReply(t, false, |full|, -1)
  {
    AccessorsAgree(full, b, args.prevLogIndex);
  }

  /** What merging the entries leaves alone: everything committed. */
  ghost predicate MergeSafe(f: Server, args: AppendArgs)
    requires Contiguous(f.log) && AppendArgsOk(f.log, args) && PrevMatches(f.log, args)
  {
    var log := WithMerged(f, args).log;
    f.commitIndex < |f.log| && f.commitIndex < |log| && log[..f.commitIndex + 1] == f.log[..f.commitIndex + 1]
    && args.leaderCommit <= LastNewIndex(args) < |log|
  }

  lemma ViewMerge(f: Server, from: nat, b: nat, args: AppendArgs)
    requires MayView(f, from, b) && AppendArgsOk(f.log, args) && AppendArgsOk(f.log[b..], args)
    requires AgreesUpTo(f.log, b, args.entries) && Contiguous(f.log) && Contiguous(f.log[b..])
    requires PrevMatches(f.log, args) && PrevMatches(f.log[b..], args) && MergeSafe(f, args)
    ensures var r := WithMerged(f, args);
            MayView(r, from, b) && WithMerged(View(f, from, b), args) == View(r, from, b)
  {
    hide AppendArgsOk, PrevMatches, AgreesUpTo, Uncompacted, MayView, View, Cut, Contiguous, AppendNew, DeleteConflicts;
    Looks(f, from, b);
    var log := WithMerged(f, args).log;
    CutDeletes(f.log, b, args.entries);
    CutAppends(DeleteConflicts(f.log, args.entries), b, args.entries);
    MergedUncompacted(f, b, args);
    CutOf(log, b);
    ViewWrites(f, from, b, log);
  }

  lemma ViewCommit(f: Server, from: nat, b: nat, args: AppendArgs)
    requires MayView(f, from, b) && args.leaderCommit <= LastNewIndex(args) < |f.log|
    ensures Contiguous(f.log) && Contiguous(f.log[b..])
    ensures var r := AdvanceCommit(f, args); MayView(r, from, b) && AdvanceCommit(View(f, from, b), args) == View(r, from, b)
  {
    hide Contiguous, Cut, Messages, ApplyLog, LastNewIndex;
    ReadsAgree(f.log, b, 0);
    if args.leaderCommit > f.commitIndex { ViewApply(f.(commitIndex := args.leaderCommit), from, b); }
  }

  lemma ViewListening(f: Server, from: nat, b: nat, args: AppendArgs, room: bool)
    requires MayView(f, from, b)
    ensures var r := Listening(f, args, room);
            MayView(r, from, b) && Listening(View(f, from, b), args, room) == View(r, from, b)
            && r.log == f.log && r.commitIndex == f.commitIndex
  {
    hide Messages, Cut, TrimDisk;
    ViewCheckTerm(f, from, b, args.term);
  }

  /** A request of an old term is refused by both alike. */
  lemma ViewIgnores(f: Server, from: nat, b: nat, args: AppendArgs, room: bool)
    requires MayView(f, from, b) && args.term < f.currentTerm
    ensures Contiguous(f.log) && Contiguous(f.log[b..])
    ensures HandleAppendEntries(View(f, from, b), args, room) == (View(f, from, b), HandleAppendEntries(f, args, room).1)
    ensures HandleAppendEntries(f, args, room).0 == f
  {
    hide Messages;
    ReadsAgree(f.log, b, 0);
    IgnoresOldTerm(f, args, room);
    IgnoresOldTerm(View(f, from, b), args, room);
  }

  /** An accepted AppendEntries does to the compacted server what it does to the full one. */
  lemma ViewAppendEntries(f: Server, from: nat, b: nat, args: AppendArgs, room: bool)
    requires MayView(f, from, b) && AppendArgsOk(f.log, args) && AgreesUpTo(f.log, b, args.entries)
    requires Contiguous(f.log) && (args.prevLogIndex == 0 || args.prevLogIndex >= b)
    requires args.term >= f.currentTerm && PrevMatches(f.log, args) && MergeSafe(f, args)
    ensures Contiguous(f.log[b..]) && AppendArgsOk(f.log[b..], args)
    ensures var (r, reply) := HandleAppendEntries(f, args, room);
            MayView(r, from, b) && HandleAppendEntries(View(f, from, b), args, room) == (View(r, from, b), reply)
  {
    hide Contiguous, AppendArgsOk, PrevMatches, AdvanceCommit, AppendNew, DeleteConflicts, AgreesUpTo, Cut, Uncompacted,
         Listening, HandleAppendEntries, LastNewIndex, Messages, MayView;
    Looks(f, from, b);
    CutPrev(f.log, b, args);
    AgreesIsOk(f.log, b, args);
    ViewListening(f, from, b, args, room);
    Listens(f, args, room);
    var s2 := Listening(f, args, room);
    Looks(s2, from, b);
    Listens(View(f, from, b), args, room);
    ViewMerge(s2, from, b, args);
    ViewCommit(WithMerged(s2, args), from, b, args);
  }

  lemma CutOf(log: seq<Entry>, b: nat)
    requires Uncompacted(log) && b < |log|
    ensures Cut(log, b)
  {
  }

  lemma MergedUncompacted(f: Server, b: nat, args: AppendArgs)
    requires Cut(f.log, b) && Contiguous(f.log) && AppendArgsOk(f.log, args) && PrevMatches(f.log, args)
    ensures Uncompacted(WithMerged(f, args).log)
  {
    AppendKeepsContiguous(f.log, args);
    var d := DeleteConflicts(f.log, args.entries);
    AppendNewContiguous(d, args.entries, args.prevLogIndex + 1) by {
      DeleteConflictsIsPrefix(f.log, args.entries, args.prevLogIndex + 1);
    }
    assert WithMerged(f, args).log[0] == d[0] == f.log[0];
  }

  ghost predicate TermsRising(log: seq<Entry>) {
    forall j, k :: 0 <= j <= k < |log| ==> log[j].term <= log[k].term
  }

  /** Asked about an entry it has compacted away, the server refuses and keeps its log; about a
      later one, it rejects just when the full server would, with a hint no earlier. */
  lemma ViewRejects(f: Server, from: nat, b: nat, args: AppendArgs, room: bool)
    requires MayView(f, from, b) && AppendArgsOk(f.log, args) && AgreesUpTo(f.log, b, args.entries)
    requires Contiguous(f.log) && args.term >= f.currentTerm && args.prevLogIndex != 0 && TermsRising(f.log)
    requires args.prevLogIndex < b || !PrevMatches(f.log, args)
    ensures Contiguous(f.log[b..]) && AppendArgsOk(f.log[b..], args)
    ensures var (r, reply) := HandleAppendEntries(View(f, from, b), args, room);
            var full := Rejection(args.term, f.log, args.prevLogIndex);
            MayView(Listening(f, args, room), from, b) && r == View(Listening(f, args, room), from, b)
            && !reply.success && reply.term == args.term
            && (args.prevLogIndex < b ==> reply == AppendReply(args.term, false, |f.log|, -1))
            && (args.prevLogIndex >= b ==>
                  reply.conflictTerm == full.conflictTerm && reply.conflictIndex == Later(full.conflictIndex, b))
  {
    hide Contiguous, AppendArgsOk, PrevMatches, AdvanceCommit, AppendNew, DeleteConflicts, AgreesUpTo, Cut, Uncompacted,
         Listening, HandleAppendEntries, Rejection, Messages, MayView;
    Looks(f, from, b);
    CutPrev(f.log, b, args);
    AgreesIsOk(f.log, b, args);
    ViewListening(f, from, b, args, room);
    Listens(View(f, from, b), args, room);
    CutRejection(f.log, b, args);
  }

  lemma CutRejection(full: seq<Entry>, b: nat, args: AppendArgs)
    requires Cut(full, b) && Contiguous(full) && Contiguous(full[b..]) && TermsRising(full)
    ensures args.prevLogIndex >= b ==>
              var cut, whole := Rejection(args.term, full[b..], args.prevLogIndex), Rejection(args.term, full, args.prevLogIndex);
              !cut.success && cut.term == args.term && cut.conflictTerm == whole.conflictTerm
              && cut.conflictIndex == Later(whole.conflictIndex, b)
  {
    ReadsAgree(full, b, args.prevLogIndex);
    if b <= args.prevLogIndex < |full| {
      CutFirstIndex(full, b, full[args.prevLogIndex].term, args.prevLogIndex);
    }
  }

  // ----- the leader -----

  /** A compacted leader sends what the full one would, or falls back on its snapshot. */
  lemma ViewPrepare(f: Server, from: nat, b: nat, me: nat, peer: nat)
    requires MayView(f, from, b) && f.role == Leader && 1 <= IndexOf(f.nextIndex, peer) <= |f.log|
    ensures Contiguous(f.log) && Contiguous(f.log[b..])
    ensures var prev := IndexOf(f.nextIndex, peer) - 1;
            PrepareAppend(View(f, from, b), me, peer)
            == if prev >= b || (prev == 0 && b <= 1) then PrepareAppend(f, me, peer) else NeedsSnapshot
  {
    hide Contiguous, Uncompacted, Cut, EntriesFrom, LastIndex, LastTerm, GetLogEntry, Messages;
    ReadsAgree(f.log, b, IndexOf(f.nextIndex, peer) - 1);
    AccessorsAgree(f.log, b, IndexOf(f.nextIndex, peer));
  }

  lemma {:induction false} CutFindTerm(full: seq<Entry>, b: nat, term: int, at: nat)
    requires Cut(full, b) && term != 0 && at <= |full|
    ensures Contiguous(full) && Contiguous(full[b..]) && LastIndex(full[b..]) == LastIndex(full) == |full| - 1
    ensures FindTerm(full[b..], term, at) == FindTerm(full, term, Later(at, b))
    decreases |full| - at
  {
    hide Contiguous, Cut, GetLogEntry, Uncompacted;
    ReadsAgree(full, b, at);
    if at < |full| && (at < b || full[at].term != term) { CutFindTerm(full, b, term, at + 1); }
  }

  lemma {:induction false} CutSkipTerm(full: seq<Entry>, b: nat, term: int, at: nat)
    requires Cut(full, b) && b <= at <= |full|
    ensures Contiguous(full) && Contiguous(full[b..]) && LastIndex(full[b..]) == LastIndex(full) == |full| - 1
    ensures SkipTerm(full[b..], term, at) == SkipTerm(full, term, at)
    decreases |full| - at
  {
    hide Contiguous, Cut, GetLogEntry, Uncompacted;
    ReadsAgree(full, b, at);
    if at < |full| && full[at].term == term { CutSkipTerm(full, b, term, at + 1); }
  }

  /** A compacted leader backs up to where the full one does, as long as that lies beyond the cut;
      else to the follower's hint. */
  lemma CutBackup(full: seq<Entry>, b: nat, reply: AppendReply)
    requires Cut(full, b) && TermsRising(full) && reply.conflictTerm != 0
    ensures Contiguous(full) && Contiguous(full[b..])
    ensures Backup(full[b..], reply)
            == if reply.conflictTerm == -1 || Backup(full, reply) > b then Backup(full, reply) else reply.conflictIndex
  {
    ReadsAgree(full, b, 0);
    if reply.conflictTerm != -1 {
      var t := reply.conflictTerm;
      var i, ib := FindTerm(full, t, 1), FindTerm(full, t, Later(1, b));
      CutFindTerm(full, b, t, 1);
      FindTermExact(full, t, 1);
      FindTermExact(full, t, Later(1, b));
      if i < |full| { SkipTermExact(full, t, i); }
      if ib < |full| {
        SkipTermExact(full, t, ib);
        CutSkipTerm(full, b, t, ib);
        FoundLater(full, t, i, ib);
      } else if i < |full| {
        RunEndsBy(full, b, t, i);
      }
    }
  }

  /** Two searches that find a term find one run. */
  lemma FoundLater(full: seq<Entry>, t: int, i: nat, ib: nat)
    requires Uncompacted(full) && Contiguous(full) && TermsRising(full)
    requires i <= ib < |full| && full[i].term == t == full[ib].term
    ensures LastIndex(full) == |full| - 1 && SkipTerm(full, t, i) == SkipTerm(full, t, ib) > ib
  {
    SkipTermExact(full, t, i);
    SkipTermExact(full, t, ib);
    var e, f := SkipTerm(full, t, i), SkipTerm(full, t, ib);
    assert forall k :: i <= k <= ib ==> full[k].term == t;
  }

  lemma RunEndsBy(full: seq<Entry>, b: nat, t: int, i: nat)
    requires Uncompacted(full) && Contiguous(full) && i < |full| && full[i].term == t && b < |full|
    requires forall k :: Later(1, b) <= k < |full| ==> full[k].term != t
    requires i >= 1
    ensures LastIndex(full) == |full| - 1 && SkipTerm(full, t, i) <= b
  {
    SkipTermExact(full, t, i);
    assert i < Later(1, b);
    assert full[b].term != t;
  }

  /** Nothing that only an earlier incarnation had applied is of the current term. */
  ghost predicate OldTerms(f: Server, b: nat) {
    forall k :: f.commitIndex < k < b && k < |f.log| ==> f.log[k].term != f.currentTerm
  }

  lemma ViewProgress(f: Server, from: nat, b: nat, nextIndex: map<nat, nat>, matchIndex: map<nat, nat>)
    requires MayView(f, from, b)
    ensures var g := f.(nextIndex := nextIndex, matchIndex := matchIndex);
            MayView(g, from, b) && View(g, from, b) == View(f, from, b).(nextIndex := nextIndex, matchIndex := matchIndex)
  {
  }

  lemma ViewRaise(f: Server, from: nat, b: nat, target: nat)
    requires MayView(f, from, b) && f.commitIndex < target < |f.log|
    ensures var g := f.(commitIndex := target);
            MayView(g, from, b) && View(g, from, b) == View(f, from, b).(commitIndex := target)
  {
  }

  /** A reply is counted, and commits, alike on the compacted and the full leader. */
  lemma ViewSuccess(f: Server, from: nat, b: nat, peers: nat, peer: nat, args: AppendArgs)
    requires MayView(f, from, b) && f.currentTerm > 0 && OldTerms(f, b) && args.prevLogIndex + |args.entries| < |f.log|
    ensures Contiguous(f.log) && Contiguous(f.log[b..])
    ensures var r := AcceptSuccess(f, peers, peer, args);
            MayView(r, from, b) && AcceptSuccess(View(f, from, b), peers, peer, args) == View(r, from, b)
  {
    hide Contiguous, Cut, Uncompacted, GetLogEntry, ApplyLog, CountMatches, MayView, View;
    var target := args.prevLogIndex + |args.entries|;
    Looks(f, from, b);
    ReadsAgree(f.log, b, target);
    ReadsAgree(f.log, 0, target);
    var g := f.(nextIndex := f.nextIndex[peer := target + 1], matchIndex := f.matchIndex[peer := target]);
    ViewProgress(f, from, b, g.nextIndex, g.matchIndex);
    if target > g.commitIndex {
      ViewRaise(g, from, b, target);
      ViewApply(g.(commitIndex := target), from, b);
    }
  }

  /** The reply is a rejection this server acts on. */
  predicate BacksUp(f: Server, args: AppendArgs, reply: AppendReply) {
    args.term >= f.currentTerm >= reply.term && f.role != Follower && !reply.success
  }

  /** The whole reply handler: the same, except that a rejection may lead before the cut. */
  lemma ViewAppendReply(f: Server, from: nat, b: nat, peers: nat, peer: nat, args: AppendArgs, reply: AppendReply)
    requires MayView(f, from, b) && TermsRising(f.log)
    requires args.term >= f.currentTerm && f.role != Follower && reply.term <= f.currentTerm ==>
               f.currentTerm > 0 && OldTerms(f, b) && args.prevLogIndex + |args.entries| < |f.log|
    requires args.term >= reply.term && !reply.success ==> reply.conflictTerm != 0
    ensures Contiguous(f.log) && Contiguous(f.log[b..])
    ensures var r := HandleAppendReply(f, peers, peer, args, reply);
            MayView(r, from, b)
            && HandleAppendReply(View(f, from, b), peers, peer, args, reply)
               == View(r, from, b).(nextIndex :=
                    if BacksUp(f, args, reply) && reply.conflictTerm != -1 && Backup(f.log, reply) <= b
                    then r.nextIndex[peer := reply.conflictIndex] else r.nextIndex)
  {
    hide Contiguous, Cut, Uncompacted, AcceptSuccess, Backup, OldTerms, TermsRising, MayView, View;
    Looks(f, from, b);
    ViewCheckTerm(f, from, b, reply.term);
    var s1 := CheckCurrentTerm(f, reply.term);
    Looks(s1, from, b);
    if args.term >= f.currentTerm && s1.role != Follower {
      if reply.success {
        ViewSuccess(f, from, b, peers, peer, args);
        Looks(AcceptSuccess(f, peers, peer, args), from, b);
      } else if args.term >= reply.term {
        CutBackup(f.log, b, reply);
        var next := f.nextIndex[peer := Backup(f.log, reply)];
        ViewProgress(f, from, b, next, f.matchIndex);
        assert next[peer := reply.conflictIndex] == f.nextIndex[peer := reply.conflictIndex];
      }
    }
  }
}
