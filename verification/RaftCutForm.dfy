/** A server whose log is cut, and the whole one: every handler makes of the two states two of which one
    is again the cut form of the other.  Where a leader looks next may differ; it decides only what is
    sent. */
module RaftCutForm {
  import opened Commands
  import opened RaftServer
  import opened RaftServerInv
  import opened RaftReplication
  import opened RaftSystem
  import opened RaftCompaction
  import opened RaftCompacted

  // ----- nextIndex decides only what a leader sends -----

  ghost predicate Like(a: Server, b: Server) {
    b == a.(nextIndex := b.nextIndex)
  }

  lemma {:induction false} LikeApply(a: Server, b: Server)
    requires Like(a, b) && Contiguous(a.log)
    ensures Like(ApplyLog(a), ApplyLog(b))
    decreases a.commitIndex - a.lastApplied
  {
    hide GetLogEntry, Contiguous;
    if a.commitIndex > a.lastApplied {
      var k := a.lastApplied + 1;
      var s, t := a.(lastApplied := k), b.(lastApplied := k);
      match GetLogEntry(a.log, k)
      case Some(e) =>
        var m := ApplyMsg(e.index, e.command);
        LikeApply(s.(applyCh := s.applyCh + [m]), t.(applyCh := t.applyCh + [m]));
      case None => LikeApply(s, t);
    }
  }

  lemma LikeElection(a: Server, b: Server, me: nat)
    requires Like(a, b) && Contiguous(a.log)
    ensures Like(StartElection(a, me).0, StartElection(b, me).0) && StartElection(a, me).1 == StartElection(b, me).1
  {
    hide Contiguous, LastIndex, LastTerm;
  }

  lemma LikeRequest(a: Server, b: Server, args: VoteArgs)
    requires Like(a, b) && Contiguous(a.log)
    ensures Like(HandleRequestVote(a, args).0, HandleRequestVote(b, args).0)
            && HandleRequestVote(a, args).1 == HandleRequestVote(b, args).1
  {
    hide Contiguous, LastIndex, LastTerm;
  }

  lemma LikeTally(a: Server, b: Server, args: VoteArgs, peers: nat, peer: nat, reply: VoteReply)
    requires Like(a, b) && Contiguous(a.log)
    ensures Like(HandleVoteReply(a, peers, peer, args, reply), HandleVoteReply(b, peers, peer, args, reply))
  {
    hide Contiguous, LastIndex, LastTerm, SameForAll;
  }

  lemma LikeStart(a: Server, b: Server, command: Command)
    requires Like(a, b) && Contiguous(a.log)
    ensures var (r, index, term, isLeader) := StartCommand(a, command);
            var (s, index', term', isLeader') := StartCommand(b, command);
            Like(r, s) && index == index' && term == term' && isLeader == isLeader'
  {
  }

  lemma LikeListening(a: Server, b: Server, args: AppendArgs, room: bool)
    requires Like(a, b)
    ensures Like(Listening(a, args, room), Listening(b, args, room))
  {
  }

  lemma LikeAppend(a: Server, b: Server, args: AppendArgs, room: bool)
    requires Like(a, b) && Contiguous(a.log) && Servable(a, args)
    ensures Like(HandleAppendEntries(a, args, room).0, HandleAppendEntries(b, args, room).0)
    ensures HandleAppendEntries(a, args, room).1 == HandleAppendEntries(b, args, room).1
  {
    hide Contiguous, AppendArgsOk, PrevMatches, AppendNew, DeleteConflicts, HandleAppendEntries, Listening, ApplyLog, LastNewIndex;
    if args.term < a.currentTerm {
      IgnoresOldTerm(a, args, room);
      IgnoresOldTerm(b, args, room);
    } else {
      Listens(a, args, room);
      Listens(b, args, room);
      LikeListening(a, b, args, room);
      var r, s := Listening(a, args, room), Listening(b, args, room);
      if PrevMatches(a.log, args) {
        var m, n := WithMerged(r, args), WithMerged(s, args);
        var target := Min(args.leaderCommit, LastNewIndex(args));
        LikeApply(m.(commitIndex := target), n.(commitIndex := target));
      }
    }
  }

  lemma LikeReply(a: Server, b: Server, peers: nat, peer: nat, args: AppendArgs, reply: AppendReply)
    requires Like(a, b) && Contiguous(a.log)
    ensures Like(HandleAppendReply(a, peers, peer, args, reply), HandleAppendReply(b, peers, peer, args, reply))
  {
    hide Contiguous, ApplyLog, CountMatches, TermAt, Backup;
    var target := args.prevLogIndex + |args.entries|;
    var s1, t1 := CheckCurrentTerm(a, reply.term), CheckCurrentTerm(b, reply.term);
    LikeApply(s1.(nextIndex := s1.nextIndex[peer := target + 1], matchIndex := s1.matchIndex[peer := target], commitIndex := target),
              t1.(nextIndex := t1.nextIndex[peer := target + 1], matchIndex := t1.matchIndex[peer := target], commitIndex := target));
  }

  lemma LikePrepare(a: Server, b: Server, me: nat, peer: nat)
    requires Like(a, b) && Contiguous(a.log) && IndexOf(a.nextIndex, peer) == IndexOf(b.nextIndex, peer)
    ensures PrepareAppend(a, me, peer) == PrepareAppend(b, me, peer)
  {
  }

  // ----- the cut form -----

  /** Where this incarnation's log began, where it begins now, and a term that all it leads is beyond. */
  datatype Cutting = Cutting(from: nat, b: nat, t: nat)

  /** g is f with its log cut, but for where it looks next as a leader. */
  ghost predicate CutForm(f: Server, k: Cutting, g: Server) {
    MayView(f, k.from, k.b) && Like(View(f, k.from, k.b), g)
  }

  // ----- the handlers on a whole log and on its cut form -----

  lemma FormParts(f: Server, k: Cutting, x: Server)
    requires CutForm(f, k, x)
    ensures Contiguous(f.log) && Contiguous(x.log) && k.b < |f.log| && x.log == f.log[k.b..]
    ensures x.role == f.role && x.currentTerm == f.currentTerm && x.lastApplied == f.lastApplied
    ensures f.lastApplied <= f.commitIndex < |f.log| && k.from <= k.b
  {
    Looks(f, k.from, k.b);
  }

  lemma ToForm(f: Server, k: Cutting, v: Server, x: Server)
    requires MayView(f, k.from, k.b) && View(f, k.from, k.b) == v && Like(v, x)
    ensures CutForm(f, k, x)
  {
  }

  lemma RoleForm(f: Server, k: Cutting, x: Server, role: Role)
    requires CutForm(f, k, x)
    ensures CutForm(f.(role := role), k, x.(role := role))
  {
  }

  lemma ElectionForm(f: Server, k: Cutting, x: Server, me: nat)
    requires CutForm(f, k, x) && Contiguous(f.log) && Contiguous(x.log)
    ensures CutForm(StartElection(f, me).0, k, StartElection(x, me).0) && StartElection(f, me).1 == StartElection(x, me).1
  {
    hide Contiguous, StartElection, Like;
    Looks(f, k.from, k.b);
    ViewElection(f, k.from, k.b, me);
    LikeElection(View(f, k.from, k.b), x, me);
    ToForm(StartElection(f, me).0, k, StartElection(View(f, k.from, k.b), me).0, StartElection(x, me).0);
  }

  lemma VoteForm(f: Server, k: Cutting, x: Server, args: VoteArgs)
    requires CutForm(f, k, x) && Contiguous(f.log) && Contiguous(x.log)
    ensures CutForm(HandleRequestVote(f, args).0, k, HandleRequestVote(x, args).0)
    ensures HandleRequestVote(f, args).1 == HandleRequestVote(x, args).1
  {
    hide Contiguous, HandleRequestVote, Like;
    Looks(f, k.from, k.b);
    ViewRequestVote(f, k.from, k.b, args);
    LikeRequest(View(f, k.from, k.b), x, args);
    ToForm(HandleRequestVote(f, args).0, k, HandleRequestVote(View(f, k.from, k.b), args).0, HandleRequestVote(x, args).0);
  }

  lemma TallyForm(f: Server, k: Cutting, x: Server, n: nat, peer: nat, args: VoteArgs, reply: VoteReply)
    requires CutForm(f, k, x) && Contiguous(f.log) && Contiguous(x.log)
    ensures CutForm(HandleVoteReply(f, n, peer, args, reply), k, HandleVoteReply(x, n, peer, args, reply))
  {
    hide Contiguous, HandleVoteReply, Like;
    Looks(f, k.from, k.b);
    ViewVoteReply(f, k.from, k.b, n, peer, args, reply);
    LikeTally(View(f, k.from, k.b), x, args, n, peer, reply);
    ToForm(HandleVoteReply(f, n, peer, args, reply), k, HandleVoteReply(View(f, k.from, k.b), n, peer, args, reply),
           HandleVoteReply(x, n, peer, args, reply));
  }

  lemma StartForm(f: Server, k: Cutting, x: Server, command: Command)
    requires CutForm(f, k, x) && Contiguous(f.log) && Contiguous(x.log)
    ensures CutForm(StartCommand(f, command).0, k, StartCommand(x, command).0)
  {
    hide Contiguous, StartCommand, Like;
    Looks(f, k.from, k.b);
    ViewStart(f, k.from, k.b, command);
    LikeStart(View(f, k.from, k.b), x, command);
    ToForm(StartCommand(f, command).0, k, StartCommand(View(f, k.from, k.b), command).0, StartCommand(x, command).0);
  }

  lemma AppendForm(f: Server, k: Cutting, x: Server, args: AppendArgs, room: bool)
    requires CutForm(f, k, x) && Contiguous(f.log) && Contiguous(x.log)
    requires (args.term >= f.currentTerm ==> Fits(f, args, k.b)) && Taken(f, args, k.b)
    ensures Servable(f, args) && Servable(x, args)
    ensures CutForm(HandleAppendEntries(f, args, room).0, k, HandleAppendEntries(x, args, room).0)
    ensures HandleAppendEntries(f, args, room).1 == HandleAppendEntries(x, args, room).1
  {
    hide Contiguous, HandleAppendEntries, AppendArgsOk, AgreesUpTo, PrevMatches, MergeSafe, TermsRising;
    Looks(f, k.from, k.b);
    FitsCut(f, k.from, k.b, args);
    var v := View(f, k.from, k.b);
    if args.term < f.currentTerm {
      ViewIgnores(f, k.from, k.b, args, room);
    } else {
      ViewAppendEntries(f, k.from, k.b, args, room);
    }
    LikeAppend(v, x, args, room);
    ToForm(HandleAppendEntries(f, args, room).0, k, HandleAppendEntries(v, args, room).0, HandleAppendEntries(x, args, room).0);
  }

  /** A request the cut log refuses leaves the whole one as taking notice of its term would. */
  lemma RefuseForm(f: Server, k: Cutting, x: Server, args: AppendArgs, room: bool)
    requires CutForm(f, k, x) && Contiguous(f.log) && Contiguous(x.log)
    requires args.term >= f.currentTerm && Fits(f, args, k.b) && !Taken(f, args, k.b)
    requires forall j :: 0 < j < |f.log| ==> f.log[j].term > 0
    ensures Servable(x, args) && CutForm(Listening(f, args, room), k, HandleAppendEntries(x, args, room).0)
    ensures var reply := HandleAppendEntries(x, args, room).1;
            !reply.success && reply.term == args.term && reply.conflictTerm != 0
  {
    hide HandleAppendEntries, AppendArgsOk, AgreesUpTo, MergeSafe, TermsRising, Listening, Contiguous, Rejection, PrevMatches;
    Looks(f, k.from, k.b);
    FitsCut(f, k.from, k.b, args);
    var v := View(f, k.from, k.b);
    NotFirst(f.log, args);
    ViewRejects(f, k.from, k.b, args, room);
    LikeAppend(v, x, args, room);
    ConflictIsReal(f.log, args);
    ToForm(Listening(f, args, room), k, HandleAppendEntries(v, args, room).0, HandleAppendEntries(x, args, room).0);
  }

  lemma NotFirst(log: seq<Entry>, args: AppendArgs)
    requires Contiguous(log)
    ensures args.prevLogIndex == 0 ==> PrevMatches(log, args)
  {
  }

  lemma ConflictIsReal(log: seq<Entry>, args: AppendArgs)
    requires Contiguous(log) && args.prevLogIndex != 0 && forall j :: 0 < j < |log| ==> log[j].term > 0
    requires log[0].index == 0
    ensures Rejection(args.term, log, args.prevLogIndex).conflictTerm != 0
  {
  }

  lemma ReplyForm(f: Server, k: Cutting, x: Server, n: nat, peer: nat, args: AppendArgs, reply: AppendReply)
    requires CutForm(f, k, x) && Contiguous(f.log) && Contiguous(x.log) && MayTake(f, args, reply, k.b)
    ensures CutForm(HandleAppendReply(f, n, peer, args, reply), k, HandleAppendReply(x, n, peer, args, reply))
  {
    hide Contiguous, HandleAppendReply, TermsRising, OldTerms, Backup, View, MayView;
    Looks(f, k.from, k.b);
    ViewAppendReply(f, k.from, k.b, n, peer, args, reply);
    LikeReply(View(f, k.from, k.b), x, n, peer, args, reply);
  }

  /** A refusal only moves where the leader looks next. */
  lemma RefusedForm(f: Server, k: Cutting, x: Server, n: nat, peer: nat, args: AppendArgs, reply: AppendReply)
    requires CutForm(f, k, x) && Contiguous(x.log) && !reply.success && reply.term == args.term
    requires args.term <= x.currentTerm
    ensures CutForm(f, k, HandleAppendReply(x, n, peer, args, reply))
  {
    hide Contiguous, Backup, MayView, View;
  }

  /** What a cut leader sends, the whole one would send if it looked there. */
  lemma SendForm(f: Server, k: Cutting, x: Server, me: nat, peer: nat)
    requires CutForm(f, k, x) && Contiguous(f.log) && Contiguous(x.log) && PrepareAppend(x, me, peer).Send?
    ensures var next := IndexOf(x.nextIndex, peer);
            f.role == Leader && 1 <= next <= |f.log|
            && PrepareAppend(f.(nextIndex := f.nextIndex[peer := next]), me, peer) == PrepareAppend(x, me, peer)
  {
    var next := IndexOf(x.nextIndex, peer);
    FormParts(f, k, x);
    SendsFromLog(f, k, x, me, peer);
    hide Contiguous, PrepareAppend, GetLogEntry;
    var h := f.(nextIndex := x.nextIndex);
    ProbedView(f, k, x);
    ViewPrepare(h, k.from, k.b, me, peer);
    LikePrepare(h, f.(nextIndex := f.nextIndex[peer := next]), me, peer);
  }

  lemma SendsFromLog(f: Server, k: Cutting, x: Server, me: nat, peer: nat)
    requires CutForm(f, k, x) && Contiguous(f.log) && Contiguous(x.log) && PrepareAppend(x, me, peer).Send?
    ensures x.role == Leader && 1 <= IndexOf(x.nextIndex, peer) <= |f.log|
  {
    Looks(f, k.from, k.b);
    ReadsAgree(f.log, k.b, IndexOf(x.nextIndex, peer) - 1);
  }

  lemma ProbedView(f: Server, k: Cutting, x: Server)
    requires CutForm(f, k, x)
    ensures var h := f.(nextIndex := x.nextIndex); MayView(h, k.from, k.b) && View(h, k.from, k.b) == x
  {
  }

  lemma BootForm(f: Server, k: Cutting, x: Server, t: nat)
    requires CutForm(f, k, x) && Synced(f)
    ensures CutForm(Boot(f.disk), Cutting(k.b, k.b, t), Boot(x.disk))
  {
    hide MayView, View, Boot;
    Looks(f, k.from, k.b);
    BootsCut(f, k.from, k.b);
  }

  lemma CompactForm(f: Server, k: Cutting, x: Server, index: nat)
    requires CutForm(f, k, x) && Contiguous(x.log) && Persist(f) == f && k.b <= index <= f.lastApplied
    requires x.log[0].index <= index <= LastIndex(x.log)
    ensures CutForm(f, Cutting(k.from, index, k.t), Compact(x, index))
  {
    hide MayView, Contiguous;
    Looks(f, k.from, k.b);
    ViewCompact(f, k.from, k.b, index);
  }
}
