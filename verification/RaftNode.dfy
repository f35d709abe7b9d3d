/** A Raft peer that updates its fields in place, region by region, as the implementation does
    under its mutex.  Every method is proved equal to the handler of the same name on values, which is
    what the runs of RaftSystem are made of, and says beside that in its own fields what it answers and
    changes. */
module RaftNode {
  import opened Commands
  import opened RaftServer
  import opened RaftLaws
  import Persister

  class Raft<Snapshot> {
    const peers: nat
    const me: nat
    const persister: Persister.Persister<Snapshot>

    var state: Role
    var currentTerm: nat
    var votedFor: int
    var log: seq<Entry>
    var commitIndex: nat
    var lastApplied: nat
    var nextIndex: map<nat, nat>
    var matchIndex: map<nat, nat>
    var votes: map<nat, Tally>
    var applyCh: seq<ApplyMsg>
    var lastIncluded: Entry      // the entry the log was last cut at; not persisted

    ghost function Abs(): Server
      reads this, persister
    {
      Server(state, currentTerm, votedFor, log, commitIndex, lastApplied, nextIndex, matchIndex,
             votes, applyCh, persister.raftState)
    }

    /** The log is never empty and consecutively numbered. */
    ghost predicate Valid()
      reads this
    {
      Contiguous(log)
    }

    constructor Make(peers: nat, me: nat, persister: Persister.Persister<Snapshot>)
      requires persister.raftState.Some? ==> Contiguous(persister.raftState.value.log)
      ensures this.peers == peers && this.me == me && this.persister == persister
      ensures Valid() && Abs() == Boot(persister.raftState) && lastIncluded == SENTINEL
      ensures state == Follower && commitIndex == lastApplied == 0 && applyCh == []
      ensures nextIndex == matchIndex == map[] && votes == map[]
      ensures match persister.raftState
              case None => currentTerm == 0 && votedFor == -1 && log == [Entry(0, 0, Nil)]
              case Some(d) => currentTerm == d.currentTerm && votedFor == d.votedFor && log == d.log
    {
      this.peers, this.me, this.persister := peers, me, persister;
      state, currentTerm, votedFor, log := Follower, 0, -1, [SENTINEL];
      commitIndex, lastApplied, applyCh := 0, 0, [];
      nextIndex, matchIndex, votes, lastIncluded := map[], map[], map[], SENTINEL;
      if persister.raftState.Some? {
        var d := persister.raftState.value;
        currentTerm, votedFor, log := d.currentTerm, d.votedFor, d.log;
      }
    }

    method DoPersist()
      modifies persister`raftState
      ensures Abs() == Persist(old(Abs()))
      ensures persister.raftState == Some(Durable(currentTerm, votedFor, log))
    {
      persister.SaveRaftState(Durable(currentTerm, votedFor, log));
    }

    method DoCheckCurrentTerm(term: nat, room: bool)
      modifies this`currentTerm, this`votedFor, this`state, persister`raftState
      ensures Abs() == CheckThroughChannel(old(Abs()), term, room)
      ensures term <= old(currentTerm) || room || old(state) == Follower ==> Abs() == CheckCurrentTerm(old(Abs()), term)
      ensures if term > old(currentTerm) then
                currentTerm == term && votedFor == -1 && persister.raftState == Some(Durable(term, -1, log))
                && state == if room then Follower else old(state)
              else currentTerm == old(currentTerm) && votedFor == old(votedFor) && state == old(state)
                   && persister.raftState == old(persister.raftState)
    {
      if term > currentTerm {
        currentTerm, votedFor := term, -1;
        DoPersist();
        if room && state != Follower { state := Follower; }
      }
    }

    method FirstTermIndex(term: nat) returns (index: nat)
      ensures index == FirstIndexOfTerm(log, term)
      ensures (forall j :: 0 <= j < |log| ==> log[j].term != term) ==> index == 0
      ensures forall f :: FirstOf(log, term, f) ==> index == log[f].index
    {
      FirstIndexMeans(log, term);
      var k := 0;
      while k < |log|
        invariant 0 <= k <= |log|
        invariant FirstIndexOfTerm(log[k..], term) == FirstIndexOfTerm(log, term)
      {
        if log[k].term == term { return log[k].index; }
        assert log[k..][1..] == log[k + 1..];
        k := k + 1;
      }
      return 0;
    }

    method DeleteEntryFrom(index: nat)
      requires Valid() && log[0].index <= index
      modifies this`log
      ensures log == DeleteFrom(old(log), index)
      ensures log == if index > old(log)[|old(log)| - 1].index then old(log) else old(log)[..index - old(log)[0].index]
    {
      if LastIndex(log) >= index { log := log[..index - log[0].index]; }
    }

    /** Forgets everything before `index`.  Calls that arrive late or twice do nothing. */
    method Compaction(index: nat)
      requires Valid() && (index > lastIncluded.index ==> log[0].index <= index <= LastIndex(log))
      modifies this`log, this`lastIncluded, persister`raftState
      ensures Valid()
      ensures index <= old(lastIncluded.index) ==> Abs() == old(Abs()) && lastIncluded == old(lastIncluded)
      ensures index > old(lastIncluded.index) ==>
                Abs() == Compact(old(Abs()), index) && Some(lastIncluded) == GetLogEntry(old(log), index)
      ensures index > old(lastIncluded.index) ==>
                log == old(log)[index - old(log)[0].index..] && lastIncluded == log[0] && log[0].index == index
                && persister.raftState == Some(Durable(currentTerm, votedFor, log))
    {
      if index <= lastIncluded.index { return; }
      lastIncluded := log[index - log[0].index];
      log := log[index - log[0].index..];
      DoPersist();
    }

    method ApplyLogToStateMachine()
      requires Valid()
      modifies this`lastApplied, this`applyCh
      ensures Abs() == ApplyLog(old(Abs()))
      ensures lastApplied == if commitIndex > old(lastApplied) then commitIndex else old(lastApplied)
      ensures old(applyCh) <= applyCh
      ensures commitIndex <= log[|log| - 1].index ==> HandsOn(log, old(lastApplied), commitIndex, applyCh[|old(applyCh)|..])
    {
      hide Contiguous, GetLogEntry, HandsOn;
      ApplySays(Abs());
      while commitIndex > lastApplied
        invariant ApplyLog(Abs()) == ApplyLog(old(Abs()))
        decreases commitIndex - lastApplied
      {
        lastApplied := lastApplied + 1;
        var e := GetLogEntry(log, lastApplied);
        if e.Some? { applyCh := applyCh + [ApplyMsg(e.value.index, e.value.command)]; }
      }
    }

    // ----- handlers -----

    method RequestVote(args: VoteArgs) returns (reply: VoteReply)
      requires Valid()
      modifies this, persister
      ensures Valid() && (Abs(), reply) == HandleRequestVote(old(Abs()), args)
      ensures reply.voteGranted <==>
                args.term >= old(currentTerm)
                && (args.term > old(currentTerm) || old(votedFor) == -1 || old(votedFor) == args.candidateId)
                && (args.lastLogTerm > old(log)[|old(log)| - 1].term
                    || (args.lastLogTerm == old(log)[|old(log)| - 1].term && args.lastLogIndex >= old(log)[|old(log)| - 1].index))
      ensures reply.term == currentTerm == if args.term > old(currentTerm) then args.term else old(currentTerm)
      ensures votedFor == if reply.voteGranted then args.candidateId
                          else if args.term > old(currentTerm) then -1 else old(votedFor)
      ensures state == (if args.term > old(currentTerm) then Follower else old(state)) && log == old(log)
      ensures reply.voteGranted ==> persister.raftState == Some(Durable(currentTerm, votedFor, log))
    {
      VoteMeans(Abs(), args);
      DoCheckCurrentTerm(args.term, true);
      if args.term < currentTerm { return VoteReply(currentTerm, false); }
      if votedFor == -1 || votedFor == args.candidateId {
        if args.lastLogTerm > LastTerm(log)
           || (args.lastLogTerm == LastTerm(log) && args.lastLogIndex >= LastIndex(log))
        {
          votedFor := args.candidateId;
          DoPersist();
          return VoteReply(currentTerm, true);
        }
      }
      return VoteReply(currentTerm, false);
    }

    /** The two loops of AppendEntries. */
    method Replace(args: AppendArgs)
      requires Valid() && AppendArgsOk(log, args) && PrevMatches(log, args)
      modifies this`log
      ensures DeleteConflicts(old(log), args.entries) != []
      ensures log == AppendNew(DeleteConflicts(old(log), args.entries), args.entries) && Valid()
      ensures Spliced(old(log), args.entries, log)
    {
      hide Spliced, FirstNew;
      SplicedBy(log, args);
      AppendKeepsContiguous(log, args);
      ghost var before, kept := log, DeleteConflicts(log, args.entries);
      var entries := args.entries;
      var k := 0;
      while k < |entries|
        invariant 0 <= k <= |entries| && Valid() && log <= before
        invariant DeleteConflicts(log, entries[k..]) == kept != []
      {
        assert entries[k..][0] == entries[k] && entries[k..][1..] == entries[k + 1..];
        var e := GetLogEntry(log, entries[k].index);
        ghost var was := log;
        if e.Some? && e.value.term != entries[k].term {
          DeleteEntryFrom(entries[k].index);
          assert log == DeleteFrom(was, entries[k].index);
          assert DeleteConflicts(log, entries[k + 1..]) == kept;
          if log == [] { DeletesFromNothing(entries[k + 1..]); }
          assert log[0] == was[0];
        }
        k := k + 1;
      }
      k := 0;
      while k < |entries|
        invariant 0 <= k <= |entries| && |log| > 0
        invariant AppendNew(log, entries[k..]) == AppendNew(kept, entries)
      {
        assert entries[k..][0] == entries[k] && entries[k..][1..] == entries[k + 1..];
        if LastIndex(log) < entries[k].index { log := log + [entries[k]]; }
        k := k + 1;
      }
    }

    /** The consistency check of AppendEntries, with the reply when it fails. */
    method CheckPrevious(args: AppendArgs) returns (rejection: Option<AppendReply>)
      requires Valid()
      ensures rejection == if PrevMatches(log, args) then None else Some(Rejection(currentTerm, log, args.prevLogIndex))
      ensures rejection.None? <==>
                args.prevLogIndex == 0
                || (log[0].index <= args.prevLogIndex <= log[|log| - 1].index
                    && log[args.prevLogIndex - log[0].index].term == args.prevLogTerm)
      ensures rejection.Some? ==>
                if log[0].index <= args.prevLogIndex <= log[|log| - 1].index then
                  var term := log[args.prevLogIndex - log[0].index].term;
                  rejection.value.conflictTerm == term
                  && forall f :: FirstOf(log, term, f) ==> rejection.value.conflictIndex == log[f].index
                else rejection.value.conflictTerm == -1 && rejection.value.conflictIndex == log[|log| - 1].index + 1
    {
      ContinuesMeans(log, args);
      RejectionMeans(currentTerm, log, args.prevLogIndex);
      if args.prevLogIndex != 0 {
        var e := GetLogEntry(log, args.prevLogIndex);
        if e.None? { return Some(AppendReply(currentTerm, false, LastIndex(log) + 1, -1)); }
        if e.value.term != args.prevLogTerm {
          var first := FirstTermIndex(e.value.term);
          return Some(AppendReply(currentTerm, false, first, e.value.term));
        }
      }
      return None;
    }

    /** `room` is whether the conversion channel can take a demotion. */
    method AppendEntries(args: AppendArgs, room: bool) returns (reply: AppendReply)
      requires Valid() && (args.term >= currentTerm ==> AppendArgsOk(log, args))
      modifies this, persister
      ensures Valid() && (Abs(), reply) == HandleAppendEntries(old(Abs()), args, room)
      ensures reply.success <==>
                args.term >= old(currentTerm)
                && (args.prevLogIndex == 0
                    || (old(log)[0].index <= args.prevLogIndex <= old(log)[|old(log)| - 1].index
                        && old(log)[args.prevLogIndex - old(log)[0].index].term == args.prevLogTerm))
      ensures reply.term == currentTerm == if args.term > old(currentTerm) then args.term else old(currentTerm)
      ensures reply.success ==> Spliced(old(log), args.entries, log)
      ensures !reply.success ==> log == old(log) && commitIndex == old(commitIndex)
      ensures reply.success ==> persister.raftState == Some(Durable(currentTerm, votedFor, log))
      ensures reply.success ==>
                var last := if args.entries == [] then args.prevLogIndex else args.entries[|args.entries| - 1].index;
                commitIndex == if args.leaderCommit <= old(commitIndex) then old(commitIndex)
                               else if args.leaderCommit <= last then args.leaderCommit else last
    {
      hide Contiguous, AppendArgsOk, HandleAppendEntries, Spliced;
      AppendSays(Abs(), args, room);
      reply := AppendInPlace(args, room);
    }

    method AppendInPlace(args: AppendArgs, room: bool) returns (reply: AppendReply)
      requires Valid() && (args.term >= currentTerm ==> AppendArgsOk(log, args))
      modifies this, persister
      ensures Valid() && (Abs(), reply) == HandleAppendEntries(old(Abs()), args, room)
    {
      hide Spliced;
      DoCheckCurrentTerm(args.term, true);
      if args.term < currentTerm { return AppendReply(currentTerm, false, 0, 0); }
      if (state == Follower || state == Candidate) && room { state := Follower; }
      var rejection := CheckPrevious(args);
      if rejection.Some? { return rejection.value; }
      Replace(args);
      DoPersist();
      LearnCommit(args);
      reply := AppendReply(currentTerm, true, 0, 0);
    }

    method LearnCommit(args: AppendArgs)
      requires Valid()
      modifies this`commitIndex, this`lastApplied, this`applyCh
      ensures Abs() == AdvanceCommit(old(Abs()), args)
      ensures var last := if args.entries == [] then args.prevLogIndex else args.entries[|args.entries| - 1].index;
              commitIndex == if args.leaderCommit <= old(commitIndex) then old(commitIndex)
                             else if args.leaderCommit <= last then args.leaderCommit else last
      ensures args.leaderCommit > old(commitIndex) ==> lastApplied >= commitIndex
    {
      if args.leaderCommit > commitIndex {
        var lastNew := if args.entries == [] then args.prevLogIndex else args.entries[|args.entries| - 1].index;
        commitIndex := if args.leaderCommit > lastNew then lastNew else args.leaderCommit;
        ApplyLogToStateMachine();
      }
    }

    method GetState() returns (term: nat, isLeader: bool)
      ensures term == currentTerm && isLeader == (state == Leader)
    {
      return currentTerm, state == Leader;
    }

    /** Start. */
    method Submit(command: Command) returns (index: nat, term: nat, isLeader: bool)
      requires Valid()
      modifies this, persister
      ensures Valid() && (Abs(), index, term, isLeader) == StartCommand(old(Abs()), command)
      ensures index == old(log)[|old(log)| - 1].index + 1 && term == old(currentTerm) && isLeader == (old(state) == Leader)
      ensures log == if isLeader then old(log) + [Entry(term, index, command)] else old(log)
      ensures isLeader ==> persister.raftState == Some(Durable(currentTerm, votedFor, log))
    {
      index, term, isLeader := LastIndex(log) + 1, currentTerm, state == Leader;
      if isLeader {
        log := log + [Entry(currentTerm, index, command)];
        DoPersist();
      }
    }

    // ----- elections -----

    method RunForElection() returns (args: VoteArgs)
      requires Valid()
      modifies this, persister
      ensures Valid() && (Abs(), args) == StartElection(old(Abs()), me)
      ensures state == Candidate && currentTerm == old(currentTerm) + 1 && votedFor == me && log == old(log)
      ensures args.term == currentTerm && args.candidateId == me && args.lastLogIndex == log[|log| - 1].index
      ensures args.lastLogTerm == if args.lastLogIndex == 0 then 0 else log[|log| - 1].term
      ensures votes == old(votes)[currentTerm := Tally({}, 1)]
      ensures persister.raftState == Some(Durable(currentTerm, me, log))
    {
      state := Candidate;
      currentTerm := currentTerm + 1;
      votedFor := me;
      votes := votes[currentTerm := Tally({}, 1)];
      DoPersist();
      var last := LastIndex(log);
      args := VoteArgs(currentTerm, me, last, if last == 0 then 0 else LastTerm(log));
    }

    /** Promotion together with runAsLeader's initialisation. */
    method Promote()
      requires Valid()
      modifies this`state, this`nextIndex, this`matchIndex
      ensures Abs() == BecomeLeader(old(Abs()), peers)
      ensures state == Leader
      ensures forall p: nat :: p in nextIndex <==> p < peers
      ensures forall p: nat :: p in matchIndex <==> p < peers
      ensures forall p: nat :: p < peers ==> nextIndex[p] == log[|log| - 1].index + 1 && matchIndex[p] == 0
    {
      assert |log| > 0;
      hide Contiguous, LastIndex;
      state := Leader;
      nextIndex, matchIndex := map[], map[];
      var index := LastIndex(log) + 1;
      for n := 0 to peers
        invariant Abs() == old(Abs()).(role := Leader, nextIndex := nextIndex, matchIndex := matchIndex)
        invariant forall p: nat :: p in nextIndex <==> p < n
        invariant forall p: nat :: p in matchIndex <==> p < n
        invariant forall p: nat :: p < n ==> nextIndex[p] == index && matchIndex[p] == 0
      {
        nextIndex := nextIndex[n := index];
        matchIndex := matchIndex[n := 0];
      }
      assert nextIndex == SameForAll(peers, index) && matchIndex == SameForAll(peers, 0);
    }

    method CountVote(peer: nat, args: VoteArgs, reply: VoteReply)
      requires Valid()
      modifies this, persister
      ensures Valid() && Abs() == HandleVoteReply(old(Abs()), peers, peer, args, reply)
      ensures reply.term > old(currentTerm) ==> state == Follower && currentTerm == reply.term && votedFor == -1 && votes == old(votes)
      ensures reply.term <= old(currentTerm) && old(state) == Candidate && reply.voteGranted && args.term == old(currentTerm)
              && args.term in old(votes) && peer !in old(votes)[args.term].recorded ==>
                votes == old(votes)[args.term := Tally(old(votes)[args.term].recorded + {peer}, old(votes)[args.term].count + 1)]
                && (state == Leader <==> old(votes)[args.term].count + 1 > peers / 2)
                && (state == Leader ==>
                      forall p: nat :: p < peers ==>
                        p in nextIndex && nextIndex[p] == log[|log| - 1].index + 1 && p in matchIndex && matchIndex[p] == 0)
      ensures reply.term <= old(currentTerm) ==>
                (old(state) == Candidate && reply.voteGranted && args.term == old(currentTerm)
                 && args.term in old(votes) && peer !in old(votes)[args.term].recorded) || Abs() == old(Abs())
    {
      VoteCountMeans(Abs(), peers, peer, args, reply);
      DoCheckCurrentTerm(reply.term, true);
      if state == Candidate && reply.voteGranted && args.term == currentTerm && args.term in votes {
        var vote := votes[args.term];
        if peer !in vote.recorded {
          vote := Tally(vote.recorded + {peer}, vote.count + 1);
          votes := votes[args.term := vote];
          if vote.count > peers / 2 { Promote(); }
        }
      }
    }

    // ----- replication -----

    method PrepareAppendTo(peer: nat) returns (sending: Sending)
      requires Valid()
      ensures sending == PrepareAppend(Abs(), me, peer)
      ensures state != Leader <==> sending == NotLeader
      ensures var next, first, last := IndexOf(nextIndex, peer), log[0].index, log[|log| - 1].index;
              state == Leader ==>
                if (next == 1 || first <= next - 1 <= last) && (next > last || first <= next) then
                  sending == Send(AppendArgs(currentTerm, me, next - 1, if next == 1 then 0 else log[next - 1 - first].term,
                                             if next > last then [] else log[next - first..], commitIndex))
                else sending == NeedsSnapshot
    {
      PrepareMeans(Abs(), me, peer);
      if state != Leader { return NotLeader; }
      var prev := IndexOf(nextIndex, peer) - 1;
      var prevTerm := 0;
      if prev != 0 {
        var e := GetLogEntry(log, prev);
        if e.None? { return NeedsSnapshot; }
        prevTerm := e.value.term;
      }
      if LastIndex(log) < IndexOf(nextIndex, peer) {
        return Send(AppendArgs(currentTerm, me, prev, prevTerm, [], commitIndex));
      }
      if GetLogEntry(log, prev + 1).None? { return NeedsSnapshot; }
      return Send(AppendArgs(currentTerm, me, prev, prevTerm, EntriesFrom(log, prev + 1), commitIndex));
    }

    method CountMatching(target: nat) returns (count: nat)
      ensures count == 1 + CountMatches(matchIndex, target, peers)
      ensures target > 0 && me < peers && (me in matchIndex ==> matchIndex[me] == 0) ==>
                count == |set p: nat | p < peers && (p == me || (p in matchIndex && matchIndex[p] >= target))|
    {
      if target > 0 && me < peers && (me in matchIndex ==> matchIndex[me] == 0) { CountIsHolders(matchIndex, me, peers, target); }
      count := 1;
      for i := 0 to peers
        invariant count == 1 + CountMatches(matchIndex, target, i)
      {
        if IndexOf(matchIndex, i) >= target { count := count + 1; }
      }
    }

    /** Where a rejection sends nextIndex: past the leader's own run of the conflicting term if it
        has one, to the follower's hint otherwise. */
    method BackUp(reply: AppendReply) returns (next: nat)
      requires Valid()
      ensures next == Backup(log, reply)
      ensures reply.conflictTerm == -1 || NoTerm(log, 1, log[|log| - 1].index + 1, reply.conflictTerm) ==> next == reply.conflictIndex
      ensures forall i: nat, j: nat :: reply.conflictTerm != -1 && FirstRun(log, reply.conflictTerm, i, j) ==> next == j
    {
      hide FirstRun, NoTerm;
      BackupMeans(log, reply);
      if reply.conflictTerm == -1 { return reply.conflictIndex; }
      var i := 1;
      while i < LastIndex(log) + 1 && TermAt(log, i) != reply.conflictTerm
        invariant 1 <= i <= LastIndex(log) + 1
        invariant FindTerm(log, reply.conflictTerm, i) == FindTerm(log, reply.conflictTerm, 1)
      {
        i := i + 1;
      }
      if i == LastIndex(log) + 1 { return reply.conflictIndex; }
      ghost var first := i;
      while i < LastIndex(log) + 1 && TermAt(log, i) == reply.conflictTerm
        invariant first <= i <= LastIndex(log) + 1
        invariant SkipTerm(log, reply.conflictTerm, i) == SkipTerm(log, reply.conflictTerm, first)
      {
        i := i + 1;
      }
      return i;
    }

    method TakeAppendReply(peer: nat, args: AppendArgs, reply: AppendReply)
      requires Valid()
      modifies this, persister
      ensures Valid() && Abs() == HandleAppendReply(old(Abs()), peers, peer, args, reply)
      ensures log == old(log)
      ensures args.term < old(currentTerm) ==> Abs() == old(Abs())
      ensures args.term >= old(currentTerm) && reply.term > old(currentTerm) ==>
                state == Follower && currentTerm == reply.term && votedFor == -1 && commitIndex == old(commitIndex)
      ensures args.term >= old(currentTerm) >= reply.term && old(state) != Follower && reply.success ==>
                nextIndex == old(nextIndex)[peer := args.prevLogIndex + |args.entries| + 1]
                && matchIndex == old(matchIndex)[peer := args.prevLogIndex + |args.entries|]
      ensures args.term >= old(currentTerm) >= reply.term && old(state) != Follower && reply.success
              && peer != me && me < peers && (me in old(matchIndex) ==> old(matchIndex)[me] == 0) ==>
                var target, first := args.prevLogIndex + |args.entries|, log[0].index;
                commitIndex
                == if target > old(commitIndex)
                      && (if first <= target <= log[|log| - 1].index then log[target - first].term else 0) == currentTerm
                      && |set p: nat | p < peers && (p == me || (p in matchIndex && matchIndex[p] >= target))| > peers / 2
                   then target else old(commitIndex)
      ensures args.term >= old(currentTerm) >= reply.term && old(state) != Follower && !reply.success ==>
                commitIndex == old(commitIndex) && matchIndex == old(matchIndex)
                && nextIndex == old(nextIndex)[peer := Backup(old(log), reply)]
    {
      hide Contiguous, HandleAppendReply, CountMatches, Backup;
      ReplySays(Abs(), me, peers, peer, args, reply);
      TakeReplyInPlace(peer, args, reply);
    }

    /** The success of a request: what the peer holds, and whether that is enough to commit. */
    method Accept(peer: nat, args: AppendArgs)
      requires Valid()
      modifies this`nextIndex, this`matchIndex, this`commitIndex, this`lastApplied, this`applyCh
      ensures Abs() == AcceptSuccess(old(Abs()), peers, peer, args)
    {
      hide Contiguous, GetLogEntry, HandsOn;
      var target := args.prevLogIndex + |args.entries|;
      nextIndex := nextIndex[peer := target + 1];
      matchIndex := matchIndex[peer := target];
      if target > commitIndex && TermAt(log, target) == currentTerm {
        var count := CountMatching(target);
        if count > peers / 2 {
          commitIndex := target;
          ApplyLogToStateMachine();
        }
      }
    }

    method TakeReplyInPlace(peer: nat, args: AppendArgs, reply: AppendReply)
      requires Valid()
      modifies this, persister
      ensures Valid() && Abs() == HandleAppendReply(old(Abs()), peers, peer, args, reply)
    {
      if args.term < currentTerm { return; }
      DoCheckCurrentTerm(reply.term, true);
      if state == Follower { return; }
      if reply.success {
        Accept(peer, args);
      } else if args.term >= reply.term {
        var next := BackUp(reply);
        nextIndex := nextIndex[peer := next];
      }
    }
  }

  lemma {:induction false} DeletesFromNothing(entries: seq<Entry>)
    ensures DeleteConflicts([], entries) == []
    decreases |entries|
  {
    if entries != [] { DeletesFromNothing(entries[1..]); }
  }

  /** AppendMeans for whichever entry is the first new one. */
  lemma AppendSays(s: Server, args: AppendArgs, room: bool)
    requires Contiguous(s.log) && (args.term >= s.currentTerm ==> AppendArgsOk(s.log, args))
    ensures var (r, reply) := HandleAppendEntries(s, args, room);
            (reply.success <==> args.term >= s.currentTerm && Continues(s.log, args))
            && reply.term == r.currentTerm == Greater(args.term, s.currentTerm)
            && (if reply.success then
                  r.commitIndex == CommitAfter(s.commitIndex, args) && r.disk == Some(Durable(r.currentTerm, r.votedFor, r.log))
                  && Spliced(s.log, args.entries, r.log)
                else r.log == s.log && r.commitIndex == s.commitIndex)
  {
    hide HandleAppendEntries, FirstNew, AppendArgsOk, Continues, Contiguous;
    var d := FirstNewExists(s.log, args.entries);
    AppendMeans(s, args, room, d);
    forall c: nat | HandleAppendEntries(s, args, room).1.success && FirstNew(s.log, args.entries, c)
      ensures SplicedAt(s.log, args.entries, c, HandleAppendEntries(s, args, room).0.log)
    {
      AppendMeans(s, args, room, c);
    }
  }

  /** CommitIff and OtherRepliesMean, whichever applies. */
  lemma ReplySays(s: Server, me: nat, peers: nat, peer: nat, args: AppendArgs, reply: AppendReply)
    requires Contiguous(s.log)
    ensures var r := HandleAppendReply(s, peers, peer, args, reply);
            r.log == s.log
            && (!Successful(s, args, reply) ==>
                  if args.term < s.currentTerm then r == s
                  else if reply.term > s.currentTerm then
                    r == s.(role := Follower, currentTerm := reply.term, votedFor := -1, disk := Some(Durable(reply.term, -1, s.log)))
                  else if s.role == Follower then r == s
                  else r == s.(nextIndex := s.nextIndex[peer := Backup(s.log, reply)]))
    ensures var r, target := HandleAppendReply(s, peers, peer, args, reply), args.prevLogIndex + |args.entries|;
            Successful(s, args, reply) ==>
              r.currentTerm == s.currentTerm
              && r.nextIndex == s.nextIndex[peer := target + 1] && r.matchIndex == s.matchIndex[peer := target]
              && (peer != me && me < peers && (me in s.matchIndex ==> s.matchIndex[me] == 0) ==>
                    r.commitIndex
                    == if target > s.commitIndex && (if InLog(s.log, target) then At(s.log, target).term else 0) == s.currentTerm
                          && |Holders(r.matchIndex, me, peers, target)| > peers / 2
                       then target else s.commitIndex)
  {
    hide Contiguous, Backup, Holders, InLog, At, CountMatches, TermAt, ApplyLog;
    if Successful(s, args, reply) {
      var target := args.prevLogIndex + |args.entries|;
      ApplyChanges(s.(nextIndex := s.nextIndex[peer := target + 1], matchIndex := s.matchIndex[peer := target], commitIndex := target));
      if peer != me && me < peers && (me in s.matchIndex ==> s.matchIndex[me] == 0) { CommitIff(s, me, peers, peer, args, reply); }
    } else {
      OtherRepliesMean(s, peers, peer, args, reply);
    }
  }
}
