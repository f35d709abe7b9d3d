/** One Raft peer as a value, and each mutex-protected region of the implementation as a
    function on it.  The class in RaftNode.dfy performs the same regions in place and is
    proved equal to these functions; RaftSystem.dfy runs them over a lossy network. */
module RaftServer {
  import opened Commands

  datatype Entry = Entry(term: nat, index: nat, command: Command)

  const SENTINEL := Entry(0, 0, Nil)

  datatype Role = Follower | Candidate | Leader

  /** What persist() writes and readPersist() reads back. */
  datatype Durable = Durable(currentTerm: nat, votedFor: int, log: seq<Entry>)

  datatype ApplyMsg = ApplyMsg(index: nat, command: Command)

  /** One election's voteInfo: the peers recorded so far and the running count, which
      starts at 1 for the candidate itself. */
  datatype Tally = Tally(recorded: set<nat>, count: nat)

  datatype Server = Server(
    role: Role,
    currentTerm: nat,
    votedFor: int,
    log: seq<Entry>,
    commitIndex: nat,
    lastApplied: nat,
    nextIndex: map<nat, nat>,
    matchIndex: map<nat, nat>,
    tallies: map<nat, Tally>,      // the voteInfo of each election this incarnation started, by term
    applyCh: seq<ApplyMsg>,        // everything this incarnation has handed to the service
    disk: Option<Durable>)         // the persister's raft state, None before the first persist()

  datatype VoteArgs = VoteArgs(term: nat, candidateId: nat, lastLogIndex: nat, lastLogTerm: nat)
  datatype VoteReply = VoteReply(term: nat, voteGranted: bool)
  datatype AppendArgs = AppendArgs(term: nat, leaderId: nat, prevLogIndex: nat, prevLogTerm: nat,
                                   entries: seq<Entry>, leaderCommit: nat)
  datatype AppendReply = AppendReply(term: nat, success: bool, conflictIndex: nat, conflictTerm: int)

  // ----- the log and its accessors -----

  /** A log is never empty and numbers its entries consecutively from its first one. */
  predicate Contiguous(log: seq<Entry>) {
    |log| > 0 && forall k :: 0 <= k < |log| ==> log[k].index == log[0].index + k
  }

  predicate Consecutive(entries: seq<Entry>, start: nat) {
    forall k :: 0 <= k < |entries| ==> entries[k].index == start + k
  }

  function LastIndex(log: seq<Entry>): nat
    requires |log| > 0
  {
    log[|log| - 1].index
  }

  function LastTerm(log: seq<Entry>): nat
    requires |log| > 0
  {
    log[|log| - 1].term
  }

  function GetLogEntry(log: seq<Entry>, index: int): Option<Entry>
    requires log == [] || Contiguous(log)
  {
    if log == [] || LastIndex(log) < index || log[0].index > index then None
    else Some(log[index - log[0].index])
  }

  /** The term getLogEntry yields when its second result is ignored: 0 if there is no entry. */
  function TermAt(log: seq<Entry>, index: int): nat
    requires Contiguous(log)
  {
    match GetLogEntry(log, index)
    case Some(e) => e.term
    case None => 0
  }

  function FirstIndexOfTerm(log: seq<Entry>, term: nat): nat {
    if log == [] then 0
    else if log[0].term == term then log[0].index
    else FirstIndexOfTerm(log[1..], term)
  }

  function DeleteFrom(log: seq<Entry>, index: nat): seq<Entry>
    requires Contiguous(log) && log[0].index <= index
  {
    if LastIndex(log) < index then log else log[..index - log[0].index]
  }

  function EntriesFrom(log: seq<Entry>, index: nat): seq<Entry>
    requires Contiguous(log) && log[0].index <= index <= LastIndex(log) + 1
  {
    log[index - log[0].index..]
  }

  // ----- shared pieces of the handlers -----

  function Persist(s: Server): Server {
    s.(disk := Some(Durable(s.currentTerm, s.votedFor, s.log)))
  }

  function CheckCurrentTerm(s: Server, term: nat): Server {
    if term > s.currentTerm then
      Persist(s.(currentTerm := term, votedFor := -1)).(role := Follower)
    else s
  }

  /** The same as the implementation performs it: through a channel for one signal, which carries no
      term.  `room` says whether the channel was empty; with room, or a follower, nothing differs. */
  function CheckThroughChannel(s: Server, term: nat, room: bool): Server {
    if term > s.currentTerm then
      var s1 := Persist(s.(currentTerm := term, votedFor := -1));
      if room && s1.role != Follower then s1.(role := Follower) else s1
    else s
  }

  function ApplyLog(s: Server): Server
    requires Contiguous(s.log)
    decreases s.commitIndex - s.lastApplied
  {
    if s.commitIndex > s.lastApplied then
      var t := s.(lastApplied := s.lastApplied + 1);
      ApplyLog(match GetLogEntry(t.log, t.lastApplied)
               case Some(e) => t.(applyCh := t.applyCh + [ApplyMsg(e.index, e.command)])
               case None => t)
    else s
  }

  /** Compaction(index), once past its guard. */
  function Compact(s: Server, index: nat): Server
    requires Contiguous(s.log) && s.log[0].index <= index <= LastIndex(s.log)
  {
    Persist(s.(log := EntriesFrom(s.log, index)))
  }

  // ----- RequestVote -----

  function GrantVote(s: Server, candidate: nat): Server {
    Persist(s.(votedFor := candidate))
  }

  predicate UpToDate(args: VoteArgs, log: seq<Entry>)
    requires |log| > 0
  {
    args.lastLogTerm > LastTerm(log)
    || (args.lastLogTerm == LastTerm(log) && args.lastLogIndex >= LastIndex(log))
  }

  function HandleRequestVote(s: Server, args: VoteArgs): (Server, VoteReply)
    requires Contiguous(s.log)
  {
    var s1 := CheckCurrentTerm(s, args.term);
    if args.term < s1.currentTerm then (s1, VoteReply(s1.currentTerm, false))
    else if (s1.votedFor == -1 || s1.votedFor == args.candidateId) && UpToDate(args, s1.log) then
      (GrantVote(s1, args.candidateId), VoteReply(s1.currentTerm, true))
    else (s1, VoteReply(s1.currentTerm, false))
  }

  // ----- AppendEntries -----

  /** First loop of AppendEntries: truncate at every entry whose term disagrees. */
  function DeleteConflicts(log: seq<Entry>, entries: seq<Entry>): seq<Entry>
    requires log == [] || Contiguous(log)
    ensures var r := DeleteConflicts(log, entries); r == [] || Contiguous(r)
    decreases |entries|
  {
    if entries == [] then log
    else
      var e := entries[0];
      match GetLogEntry(log, e.index)
      case Some(x) =>
        DeleteConflicts(if x.term != e.term then DeleteFrom(log, e.index) else log, entries[1..])
      case None => DeleteConflicts(log, entries[1..])
  }

  /** Second loop: append what lies beyond the end. */
  function AppendNew(log: seq<Entry>, entries: seq<Entry>): seq<Entry>
    requires |log| > 0
    decreases |entries|
  {
    if entries == [] then log
    else if LastIndex(log) < entries[0].index then AppendNew(log + [entries[0]], entries[1..])
    else AppendNew(log, entries[1..])
  }

  /** What AppendEntries demands of its caller: consecutive entries after PrevLogIndex that
      do not contradict the first entry held, since truncating there leaves no log at all. */
  predicate AppendArgsOk(log: seq<Entry>, args: AppendArgs)
    requires |log| > 0
  {
    Consecutive(args.entries, args.prevLogIndex + 1)
    && forall k :: 0 <= k < |args.entries| && args.entries[k].index == log[0].index
                   ==> args.entries[k].term == log[0].term
  }

  predicate PrevMatches(log: seq<Entry>, args: AppendArgs)
    requires Contiguous(log)
  {
    args.prevLogIndex == 0
    || (var e := GetLogEntry(log, args.prevLogIndex); e.Some? && e.value.term == args.prevLogTerm)
  }

  function Rejection(term: nat, log: seq<Entry>, prevLogIndex: nat): AppendReply
    requires Contiguous(log)
  {
    match GetLogEntry(log, prevLogIndex)
    case None => AppendReply(term, false, LastIndex(log) + 1, -1)
    case Some(e) => AppendReply(term, false, FirstIndexOfTerm(log, e.term), e.term)
  }

  function LastNewIndex(args: AppendArgs): nat {
    if args.entries == [] then args.prevLogIndex else args.entries[|args.entries| - 1].index
  }

  function Min(a: nat, b: nat): nat { if a < b then a else b }

  function AdvanceCommit(s: Server, args: AppendArgs): Server
    requires Contiguous(s.log)
  {
    if args.leaderCommit > s.commitIndex then
      ApplyLog(s.(commitIndex := Min(args.leaderCommit, LastNewIndex(args))))
    else s
  }

  /** `room` says whether convertState could take the demotion of a same-term candidate; the
      implementation skips that demotion when the channel is full. */
  function HandleAppendEntries(s: Server, args: AppendArgs, room: bool): (Server, AppendReply)
    requires Contiguous(s.log) && (args.term >= s.currentTerm ==> AppendArgsOk(s.log, args))
  {
    var s1 := CheckCurrentTerm(s, args.term);
    if args.term < s1.currentTerm then (s1, AppendReply(s1.currentTerm, false, 0, 0))
    else
      var s2 := if s1.role != Leader && room then s1.(role := Follower) else s1;
      if !PrevMatches(s2.log, args) then (s2, Rejection(s2.currentTerm, s2.log, args.prevLogIndex))
      else
        AppendKeepsContiguous(s2.log, args);
        var s3 := Persist(s2.(log := AppendNew(DeleteConflicts(s2.log, args.entries), args.entries)));
        (AdvanceCommit(s3, args), AppendReply(s3.currentTerm, true, 0, 0))
  }

  /** The two loops never empty the log and keep it consecutively numbered. */
  lemma AppendKeepsContiguous(log: seq<Entry>, args: AppendArgs)
    requires Contiguous(log) && AppendArgsOk(log, args) && PrevMatches(log, args)
    ensures var d := DeleteConflicts(log, args.entries);
            d != [] && d <= log && Contiguous(d) && Contiguous(AppendNew(d, args.entries))
  {
    var d := DeleteConflicts(log, args.entries);
    DeleteConflictsIsPrefix(log, args.entries, args.prevLogIndex + 1);
    if args.prevLogIndex == 0 {
      AppendNewContiguous(d, args.entries, 1);
    } else {
      AppendNewContiguous(d, args.entries, args.prevLogIndex + 1);
    }
  }

  lemma {:induction false} DeleteConflictsIsPrefix(log: seq<Entry>, entries: seq<Entry>, start: nat)
    requires Contiguous(log) && Consecutive(entries, start)
    requires forall k :: 0 <= k < |entries| && entries[k].index == log[0].index
                         ==> entries[k].term == log[0].term
    ensures var d := DeleteConflicts(log, entries);
            d != [] && d <= log && Contiguous(d) && (log[0].index < start ==> LastIndex(d) + 1 >= Min(start, LastIndex(log) + 1))
    decreases |entries|
  {
    if entries != [] {
      var e := entries[0];
      var x := GetLogEntry(log, e.index);
      var next := if x.Some? && x.value.term != e.term then DeleteFrom(log, e.index) else log;
      if next != log {
        assert next[0] == log[0];
        assert Contiguous(next);
      }
      assert Consecutive(entries[1..], start + 1);
      DeleteConflictsIsPrefix(next, entries[1..], start + 1);
    }
  }

  lemma {:induction false} AppendNewContiguous(log: seq<Entry>, entries: seq<Entry>, start: nat)
    requires Contiguous(log) && Consecutive(entries, start) && start <= LastIndex(log) + 1
    ensures log <= AppendNew(log, entries) && Contiguous(AppendNew(log, entries))
    decreases |entries|
  {
    if entries != [] {
      var next := if LastIndex(log) < entries[0].index then log + [entries[0]] else log;
      assert Consecutive(entries[1..], start + 1);
      assert next[0] == log[0];
      AppendNewContiguous(next, entries[1..], start + 1);
    }
  }

  // ----- the leader's side of AppendEntries -----

  function IndexOf(m: map<nat, nat>, peer: nat): nat { if peer in m then m[peer] else 0 }

  datatype Sending = NotLeader | NeedsSnapshot | Send(args: AppendArgs)

  function PrepareAppend(s: Server, me: nat, peer: nat): Sending
    requires Contiguous(s.log)
  {
    if s.role != Leader then NotLeader
    else
      var prev := IndexOf(s.nextIndex, peer) - 1;
      if prev != 0 && GetLogEntry(s.log, prev) == None then NeedsSnapshot
      else
        var prevTerm := if prev == 0 then 0 else TermAt(s.log, prev);
        if LastIndex(s.log) < prev + 1 then
          Send(AppendArgs(s.currentTerm, me, prev, prevTerm, [], s.commitIndex))
        else if GetLogEntry(s.log, prev + 1) == None then NeedsSnapshot
        else Send(AppendArgs(s.currentTerm, me, prev, prevTerm, EntriesFrom(s.log, prev + 1), s.commitIndex))
  }

  function CountMatches(matchIndex: map<nat, nat>, target: nat, peers: nat): nat {
    if peers == 0 then 0
    else CountMatches(matchIndex, target, peers - 1)
         + (if IndexOf(matchIndex, peers - 1) >= target then 1 else 0)
  }

  function AcceptSuccess(s: Server, peers: nat, peer: nat, args: AppendArgs): Server
    requires Contiguous(s.log)
  {
    var target := args.prevLogIndex + |args.entries|;
    var s1 := s.(nextIndex := s.nextIndex[peer := target + 1], matchIndex := s.matchIndex[peer := target]);
    if target > s1.commitIndex && TermAt(s1.log, target) == s1.currentTerm
       && 1 + CountMatches(s1.matchIndex, target, peers) > peers / 2
    then ApplyLog(s1.(commitIndex := target))
    else s1
  }

  /** First index in [from, last] whose term is `term`; last + 1 if there is none. */
  function FindTerm(log: seq<Entry>, term: int, from: nat): (i: nat)
    requires Contiguous(log) && from <= LastIndex(log) + 1
    ensures from <= i <= LastIndex(log) + 1
    decreases LastIndex(log) + 1 - from
  {
    if from == LastIndex(log) + 1 || TermAt(log, from) == term then from
    else FindTerm(log, term, from + 1)
  }

  /** First index in [from, last] whose term is not `term`; last + 1 if there is none. */
  function SkipTerm(log: seq<Entry>, term: int, from: nat): (i: nat)
    requires Contiguous(log) && from <= LastIndex(log) + 1
    ensures from <= i <= LastIndex(log) + 1
    decreases LastIndex(log) + 1 - from
  {
    if from == LastIndex(log) + 1 || TermAt(log, from) != term then from
    else SkipTerm(log, term, from + 1)
  }

  /** The nextIndex a rejection leads to. */
  function Backup(log: seq<Entry>, reply: AppendReply): nat
    requires Contiguous(log)
  {
    if reply.conflictTerm == -1 then reply.conflictIndex
    else
      var i := FindTerm(log, reply.conflictTerm, 1);
      if i <= LastIndex(log) then SkipTerm(log, reply.conflictTerm, i) else reply.conflictIndex
  }

  function HandleAppendReply(s: Server, peers: nat, peer: nat, args: AppendArgs, reply: AppendReply): Server
    requires Contiguous(s.log)
  {
    if args.term < s.currentTerm then s
    else
      var s1 := CheckCurrentTerm(s, reply.term);
      if s1.role == Follower then s1
      else if reply.success then AcceptSuccess(s1, peers, peer, args)
      else if args.term >= reply.term then s1.(nextIndex := s1.nextIndex[peer := Backup(s1.log, reply)])
      else s1
  }

  // ----- elections -----

  function StartElection(s: Server, me: nat): (Server, VoteArgs)
    requires Contiguous(s.log)
  {
    var term := s.currentTerm + 1;
    var s1 := Persist(s.(role := Candidate, currentTerm := term, votedFor := me,
                         tallies := s.tallies[term := Tally({}, 1)]));
    (s1, VoteArgs(term, me, LastIndex(s1.log), if LastIndex(s1.log) == 0 then 0 else LastTerm(s1.log)))
  }

  function PeerIds(peers: nat): (ids: set<nat>)
    ensures forall n: nat :: n in ids <==> n < peers
    ensures |ids| == peers
  {
    if peers == 0 then {} else PeerIds(peers - 1) + {peers - 1}
  }

  function SameForAll(peers: nat, value: nat): map<nat, nat> {
    map n | n in PeerIds(peers) :: value
  }

  function BecomeLeader(s: Server, peers: nat): Server
    requires Contiguous(s.log)
  {
    s.(role := Leader, nextIndex := SameForAll(peers, LastIndex(s.log) + 1), matchIndex := SameForAll(peers, 0))
  }

  function HandleVoteReply(s: Server, peers: nat, peer: nat, args: VoteArgs, reply: VoteReply): Server
    requires Contiguous(s.log)
  {
    var s1 := CheckCurrentTerm(s, reply.term);
    if s1.role == Candidate && reply.voteGranted && args.term == s1.currentTerm
       && args.term in s1.tallies && peer !in s1.tallies[args.term].recorded
    then
      var before := s1.tallies[args.term];
      var tally := Tally(before.recorded + {peer}, before.count + 1);
      var s2 := s1.(tallies := s1.tallies[args.term := tally]);
      if tally.count > peers / 2 then BecomeLeader(s2, peers) else s2
    else s1
  }

  // ----- client commands, start-up and restart -----

  function StartCommand(s: Server, command: Command): (Server, nat, nat, bool)
    requires Contiguous(s.log)
  {
    var index := LastIndex(s.log) + 1;
    if s.role == Leader then
      (Persist(s.(log := s.log + [Entry(s.currentTerm, index, command)])), index, s.currentTerm, true)
    else (s, index, s.currentTerm, false)
  }

  /** Make(): defaults, overwritten by whatever the persister holds. */
  function Boot(disk: Option<Durable>): Server {
    var d := match disk case None => Durable(0, -1, [SENTINEL]) case Some(d) => d;
    Server(Follower, d.currentTerm, d.votedFor, d.log, 0, 0, map[], map[], map[], [], disk)
  }
}
