/** A bare majority, the leader included, is what commits an entry: in every run the commit rule is that
    one, and a run of three servers commits an entry that one of them never sees. */
module RaftMajority {
  import opened Commands
  import opened RaftServer
  import opened RaftLaws
  import opened RaftSafety
  import opened RaftSystem
  import opened RaftWindows

  // ----- the commit rule of every run -----

  /** A server counts itself once, whatever its table says: its own row stays at 0. */
  ghost predicate OwnRowIsZero(srv: Server, i: nat) {
    i in srv.matchIndex ==> srv.matchIndex[i] == 0
  }

  lemma AnswersKeepRows(srv: Server, args: AppendArgs, room: bool)
    requires Contiguous(srv.log) && (args.term >= srv.currentTerm ==> AppendArgsOk(srv.log, args))
    ensures HandleAppendEntries(srv, args, room).0.matchIndex == srv.matchIndex
  {
    hide HandleAppendEntries, AppendArgsOk, FirstNew, Contiguous;
    var c := FirstNewExists(srv.log, args.entries);
    AppendMeans(srv, args, room, c);
  }

  lemma RepliesKeepOwnRow(srv: Server, i: nat, peers: nat, peer: nat, args: AppendArgs, reply: AppendReply)
    requires Contiguous(srv.log) && OwnRowIsZero(srv, i) && i < peers && peer != i
    ensures OwnRowIsZero(HandleAppendReply(srv, peers, peer, args, reply), i)
  {
    hide HandleAppendReply, Contiguous, Holders, InLog, Backup;
    if Successful(srv, args, reply) {
      CommitIff(srv, i, peers, peer, args, reply);
    } else {
      OtherRepliesMean(srv, peers, peer, args, reply);
    }
  }

  lemma StepKeepsOwnRow(s: State, step: Step, i: nat)
    requires Inv(s) && WellFormed(s) && Enabled(s, step) && i < |s.servers| && OwnRowIsZero(s.servers[i], i)
    ensures i < |Do(s, step).servers| && OwnRowIsZero(Do(s, step).servers[i], i)
  {
    hide Inv, CoreOf, Deliveries, HandleRequestVote, HandleVoteReply, HandleAppendEntries, HandleAppendReply, StartElection, Contiguous;
    match step
    case ServeVote(rpc) => VoteMeans(s.servers[rpc.dst], rpc.vote);
    case TakeVote(rpc, reply) => VoteCountMeans(s.servers[rpc.src], |s.servers|, rpc.dst, rpc.vote, reply);
    case BeginElection(j) => ElectionMeans(s.servers[j], j);
    case ServeAppend(rpc, room) => AnswersKeepRows(s.servers[rpc.dst], rpc.append, room);
    case TakeAppend(rpc, reply) =>
      NobodyAsksItself(s, AppendResponse(rpc, reply));
      if rpc.src == i { RepliesKeepOwnRow(s.servers[i], i, |s.servers|, rpc.dst, rpc.append, reply); }
    case _ =>
  }

  lemma NobodyAsksItself(s: State, m: Message)
    requires Inv(s) && m in s.net
    ensures m.rpc.src < |s.servers| && m.rpc.dst < |s.servers| && m.rpc.src != m.rpc.dst
  {
    assert MessageOk(CoreOf(s), m);
  }

  lemma OwnRowAtFirst(n: nat, i: nat)
    requires i < n
    ensures OwnRowIsZero(Init(n).servers[i], i)
  {
  }

  lemma {:induction false} OwnRowStaysZero(n: nat, states: seq<State>, steps: seq<Step>, k: nat, i: nat)
    requires Run(n, states, steps) && k < |states| && i < n
    ensures |states[k].servers| == n && OwnRowIsZero(states[k].servers[i], i)
  {
    hide Inv, Enabled, Do, OwnRowIsZero;
    RunInv(n, states, steps, k);
    if k == 0 {
      OwnRowAtFirst(n, i);
    } else {
      OwnRowStaysZero(n, states, steps, k - 1, i);
      RunInv(n, states, steps, k - 1);
      assert Next(states[k - 1], steps[k - 1], states[k]);
      StepKeepsOwnRow(states[k - 1], steps[k - 1], i);
    }
  }

  /** In every run: an answered append that brings an entry of the leader's term within reach commits it if
      and only if more than half of the cluster, the leader included, are known to hold it. */
  lemma BareMajorityCommits(n: nat, states: seq<State>, steps: seq<Step>, k: nat, rpc: Rpc, reply: AppendReply)
    requires Run(n, states, steps) && k < |steps| && steps[k] == TakeAppend(rpc, reply)
    ensures rpc.AppendRpc? && rpc.src < n && |states[k].servers| == |states[k + 1].servers| == n
    ensures var f, g := states[k].servers[rpc.src], states[k + 1].servers[rpc.src];
            var target := rpc.append.prevLogIndex + |rpc.append.entries|;
            Contiguous(f.log)
            && (Successful(f, rpc.append, reply) ==>
                  g.matchIndex == f.matchIndex[rpc.dst := target]
                  && g.commitIndex
                     == if target > f.commitIndex && (if InLog(f.log, target) then At(f.log, target).term else 0) == f.currentTerm
                           && |Holders(g.matchIndex, rpc.src, n, target)| > n / 2
                        then target else f.commitIndex)
  {
    hide Inv, HandleAppendReply, Contiguous, InLog, Holders, OwnRowIsZero, CoreOf, Deliveries;
    RunNext(n, states, steps, k);
    RunInv(n, states, steps, k);
    OwnRowStaysZero(n, states, steps, k, rpc.src);
    NobodyAsksItself(states[k], AppendResponse(rpc, reply));
    var f := states[k].servers[rpc.src];
    if Successful(f, rpc.append, reply) {
      OwnRow(f, rpc.src);
      CommitIff(f, rpc.src, n, rpc.dst, rpc.append, reply);
    }
  }

  lemma OwnRow(srv: Server, i: nat)
    requires OwnRowIsZero(srv, i)
    ensures i in srv.matchIndex ==> srv.matchIndex[i] == 0
  {
  }

  lemma RunNext(n: nat, states: seq<State>, steps: seq<Step>, k: nat)
    requires Run(n, states, steps) && k < |steps|
    ensures Next(states[k], steps[k], states[k + 1])
  {
  }

  // ----- a run that commits with one server down -----

  function Command1(command: Command): seq<Entry> { [SENTINEL, Entry(1, 1, command)] }

  /** The leader that was elected by one vote, with the command appended. */
  function Appended(command: Command): Server {
    ELECTED_FIRST.(log := Command1(command), disk := Some(Durable(1, 0, Command1(command))))
  }

  /** The one follower that answers. */
  function Helper(command: Command): Server {
    Boot(None).(currentTerm := 1, log := Command1(command), disk := Some(Durable(1, -1, Command1(command))))
  }

  function Committer(command: Command): Server {
    Appended(command).(nextIndex := SameForAll(3, 1)[1 := 2], matchIndex := SameForAll(3, 0)[1 := 1],
                       commitIndex := 1, lastApplied := 1, applyCh := [ApplyMsg(1, command)])
  }

  function Sent(command: Command): AppendArgs { AppendArgs(1, 0, 0, 0, [Entry(1, 1, command)], 0) }

  function ToHelper(command: Command): Rpc { AppendRpc(0, 0, 1, Sent(command)) }

  const YES := AppendReply(1, true, 0, 0)

  lemma Appends(command: Command)
    ensures ELECTED_FIRST.role == Leader && StartCommand(ELECTED_FIRST, command).0 == Appended(command)
  {
    assert [SENTINEL] + [Entry(1, 1, command)] == Command1(command);
  }

  lemma Prepares(command: Command)
    ensures Contiguous(Appended(command).log)
    ensures PrepareAppend(Appended(command), 0, 1) == Send(Sent(command))
  {
    var s := Appended(command);
    assert 1 in PeerIds(3) && s.nextIndex[1] == 1;
    PrepareMeans(s, 0, 1);
    assert s.log[1..] == [Entry(1, 1, command)];
  }

  lemma Helps(command: Command)
    ensures Contiguous(Boot(None).log) && Servable(Boot(None), Sent(command))
    ensures HandleAppendEntries(Boot(None), Sent(command), true) == (Helper(command), YES) && Contiguous(Helper(command).log)
  {
    var e, s := Entry(1, 1, command), Boot(None);
    assert [e][1..] == [];
    assert DeleteConflicts(s.log, [e]) == s.log;
    assert AppendNew(s.log, [e]) == s.log + [e] == Command1(command);
  }

  lemma Commits(command: Command)
    ensures Contiguous(Appended(command).log)
    ensures HandleAppendReply(Appended(command), 3, 1, Sent(command), YES) == Committer(command) && Contiguous(Committer(command).log)
  {
    var s := Appended(command);
    var matchIndex := s.matchIndex[1 := 1];
    OneAnswers();
    var t := s.(nextIndex := s.nextIndex[1 := 2], matchIndex := matchIndex, commitIndex := 1);
    assert GetLogEntry(s.log, 1) == Some(Entry(1, 1, command));
    assert ApplyLog(t) == Committer(command);
  }

  lemma OneAnswers()
    ensures CountMatches(SameForAll(3, 0)[1 := 1], 1, 3) == 1
  {
    var m := SameForAll(3, 0)[1 := 1];
    assert 0 in PeerIds(3) && 2 in PeerIds(3);
    assert CountMatches(m, 1, 0) == 0 && CountMatches(m, 1, 1) == 0 && CountMatches(m, 1, 2) == 1;
  }

  /** What matters of a state of the run below. */
  ghost predicate At3(s: State, a: Server, b: Server, c: Server) {
    s.servers == [a, b, c] && s.epochs == [0, 0, 0] && WellFormed(s)
  }

  function Steps(command: Command): seq<Step> {
    [BeginElection(0), ServeVote(ASK_FIRST), TakeVote(ASK_FIRST, VoteReply(1, true)), Submit(0, command), SendAppend(0, 1),
     ServeAppend(ToHelper(command), true), TakeAppend(ToHelper(command), YES)]
  }

  /** Server i of such a state is replaced by one whose log is well-formed. */
  lemma Replaced(s: State, a: Server, b: Server, c: Server, i: nat, r: Server, sent: set<Message>, t: State)
    requires At3(s, a, b, c) && i < 3 && Contiguous(r.log) && t == Update(s, i, r, sent, t.h)
    ensures At3(t, if i == 0 then r else a, if i == 1 then r else b, if i == 2 then r else c) && sent <= t.net
  {
    hide Deliveries, Contiguous;
  }

  lemma Submits(s: State, command: Command) returns (t: State)
    requires At3(s, ELECTED_FIRST, Boot(None), Voted(1, 0))
    ensures Next(s, Submit(0, command), t) && At3(t, Appended(command), Boot(None), Voted(1, 0))
  {
    hide StartCommand, Deliveries, Voted, Boot, Appended, Contiguous;
    Appends(command);
    Prepares(command);
    t := Do(s, Submit(0, command));
    Replaced(s, ELECTED_FIRST, Boot(None), Voted(1, 0), 0, Appended(command), {}, t);
  }

  lemma Sends(s: State, command: Command) returns (t: State)
    requires At3(s, Appended(command), Boot(None), Voted(1, 0))
    ensures Next(s, SendAppend(0, 1), t) && At3(t, Appended(command), Boot(None), Voted(1, 0))
    ensures Request(ToHelper(command)) in t.net
  {
    hide PrepareAppend, Deliveries, Voted, Boot, Appended, Contiguous, Sent;
    Prepares(command);
    t := Do(s, SendAppend(0, 1));
    var sent := {Request(ToHelper(command))};
    Replaced(s, Appended(command), Boot(None), Voted(1, 0), 0, Appended(command), sent, t);
    assert Request(ToHelper(command)) in sent;
  }

  lemma Serves(s: State, command: Command) returns (t: State)
    requires At3(s, Appended(command), Boot(None), Voted(1, 0)) && Request(ToHelper(command)) in s.net
    ensures Next(s, ServeAppend(ToHelper(command), true), t) && At3(t, Appended(command), Helper(command), Voted(1, 0))
    ensures AppendResponse(ToHelper(command), YES) in t.net
  {
    hide HandleAppendEntries, Deliveries, Voted, Boot, Appended, Helper, Contiguous, Servable, Sent;
    Helps(command);
    t := Do(s, ServeAppend(ToHelper(command), true));
    var sent := {AppendResponse(ToHelper(command), YES)};
    Replaced(s, Appended(command), Boot(None), Voted(1, 0), 1, Helper(command), sent, t);
    assert AppendResponse(ToHelper(command), YES) in sent;
  }

  lemma Takes(s: State, command: Command) returns (t: State)
    requires At3(s, Appended(command), Helper(command), Voted(1, 0)) && AppendResponse(ToHelper(command), YES) in s.net
    ensures Next(s, TakeAppend(ToHelper(command), YES), t) && At3(t, Committer(command), Helper(command), Voted(1, 0))
  {
    hide HandleAppendReply, Deliveries, Voted, Boot, Appended, Helper, Committer, Contiguous, Sent;
    Commits(command);
    t := Do(s, TakeAppend(ToHelper(command), YES));
    Replaced(s, Appended(command), Helper(command), Voted(1, 0), 0, Committer(command), {}, t);
  }

  lemma Elected(s: State)
    requires Stands(s, [ELECTED_FIRST, Boot(None), Voted(1, 0)], {})
    ensures At3(s, ELECTED_FIRST, Boot(None), Voted(1, 0))
  {
    assert forall i :: 0 <= i < 3 ==> Contiguous(s.servers[i].log);
  }

  lemma InResult(s: State, command: Command)
    requires At3(s, Committer(command), Helper(command), Voted(1, 0))
    ensures |s.servers| == 3 && s.servers[0].commitIndex == 1 && s.servers[0].applyCh == [ApplyMsg(1, command)]
    ensures s.servers[2].log == [SENTINEL]
  {
  }

  /** With the third server out of reach after its vote, a command is committed and handed to the service
      by one follower's answer. */
  lemma OneAnswerCommits(command: Command) returns (states: seq<State>)
    ensures Run(3, states, Steps(command))
    ensures var last := states[|states| - 1];
            |last.servers| == 3 && last.servers[0].commitIndex == 1 && last.servers[0].applyCh == [ApplyMsg(1, command)]
            && last.servers[2].log == [SENTINEL]
  {
    hide Next, Stands, At3;
    Starts();
    var s0 := Init(3);
    var s1 := FirstAsks(s0);
    var s2 := FirstAnswers(s1);
    var s3 := FirstCounts(s2);
    Elected(s3);
    var s4 := Submits(s3, command);
    var s5 := Sends(s4, command);
    var s6 := Serves(s5, command);
    var s7 := Takes(s6, command);
    InResult(s7, command);
    states := [s0, s1, s2, s3, s4, s5, s6, s7];
  }
}
