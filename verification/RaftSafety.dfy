/** Every run of the cluster is safe. */
module RaftSafety {
  import opened Commands
  import opened RaftServer
  import opened RaftCore
  import opened RaftCoreSteps
  import opened RaftCommitted
  import opened RaftServerInv
  import opened RaftHandlers
  import opened RaftReplication
  import opened RaftSystem

  // ----- the invariant of the cluster -----

  function CoreOf(s: State): (c: Core)
    ensures |c.nodes| == |s.servers| && c.h == s.h
    ensures forall i :: 0 <= i < |s.servers| ==> c.nodes[i] == NodeOf(s.servers[i])
  {
    Core(seq(|s.servers|, i requires 0 <= i < |s.servers| => NodeOf(s.servers[i])), s.h)
  }

  ghost predicate RpcOk(c: Core, rpc: Rpc) {
    rpc.src < |c.nodes| && rpc.dst < |c.nodes| && rpc.src != rpc.dst
    && match rpc
       case VoteRpc(src, epoch, dst, args) => VoteArgsOk(c.h, src, args)
       case AppendRpc(src, epoch, dst, args) => AppendArgsSent(c, src, args)
  }

  ghost predicate MessageOk(c: Core, m: Message) {
    RpcOk(c, m.rpc)
    && match m
       case Request(rpc) => true
       case VoteResponse(rpc, reply) =>
         rpc.VoteRpc? && (reply.voteGranted ==> VotedFor(c.h, {rpc.dst}, rpc.vote.term, rpc.src))
       case AppendResponse(rpc, reply) =>
         rpc.AppendRpc? && AppendReplyOk(c.h, rpc.dst, rpc.append, reply)
  }

  /** The delivered command is the one at its index in some committed prefix. */
  ghost predicate DeliveryOk(c: Core, msg: ApplyMsg) {
    exists log: seq<Entry>, bound: nat :: Settled(c, log, bound) && 1 <= msg.index < |log| && log[msg.index].command == msg.command
  }

  ghost predicate ServersOk(s: State) {
    forall i :: 0 <= i < |s.servers| ==> ServerOk(CoreOf(s), s.servers[i], i)
  }

  ghost predicate NetOk(s: State) {
    forall m :: m in s.net ==> MessageOk(CoreOf(s), m)
  }

  ghost predicate DeliveredOk(s: State) {
    forall d :: d in s.delivered ==> DeliveryOk(CoreOf(s), d.msg)
  }

  ghost predicate Inv(s: State) {
    |s.epochs| == |s.servers| && CoreInv(CoreOf(s)) && ServersOk(s) && NetOk(s) && DeliveredOk(s)
  }

  // ----- what growth of the history preserves -----

  lemma RpcGrows(c: Core, d: Core, rpc: Rpc)
    requires HistGrows(c, d) && RpcOk(c, rpc)
    ensures RpcOk(d, rpc)
  {
    if rpc.AppendRpc? { AppendArgsGrow(c, d, rpc.src, rpc.append); }
  }

  lemma MessageGrows(c: Core, d: Core, m: Message)
    requires HistGrows(c, d) && MessageOk(c, m)
    ensures MessageOk(d, m)
  {
    RpcGrows(c, d, m.rpc);
  }

  lemma DeliveryGrows(c: Core, d: Core, msg: ApplyMsg)
    requires HistGrows(c, d) && DeliveryOk(c, msg)
    ensures DeliveryOk(d, msg)
  {
    var log: seq<Entry>, bound: nat :| Settled(c, log, bound) && 1 <= msg.index < |log| && log[msg.index].command == msg.command;
    SettledGrows(c, d, log, bound, bound);
  }

  /** What a server has applied is committed. */
  lemma AppliedIsSettled(c: Core, srv: Server, msg: ApplyMsg)
    requires CommitOk(c, srv) && msg in srv.applyCh
    ensures DeliveryOk(c, msg)
  {
    var k :| 0 <= k < |srv.applyCh| && srv.applyCh[k] == msg;
    var log := srv.log[..srv.commitIndex + 1];
    assert Settled(c, log, srv.currentTerm) && log[msg.index].command == msg.command;
  }

  /** The past of s is part of the past of t. */
  ghost predicate Advances(s: State, t: State) {
    HistGrows(CoreOf(s), CoreOf(t)) && s.net <= t.net && s.delivered <= t.delivered
  }

  // ----- one server moves -----

  /** Only i can have become leader of a new term. */
  ghost predicate NewLeaderIs(c: Core, d: Core, i: nat) {
    forall t :: t in d.h.elections && t !in c.h.elections ==> d.h.elections[t].leader == i
  }

  lemma CoreOfUpdate(s: State, i: nat, r: Server, sent: set<Message>, h: History)
    requires i < |s.servers|
    ensures CoreOf(Update(s, i, r, sent, h)) == Moved(CoreOf(s), i, r, h)
  {
    assert CoreOf(Update(s, i, r, sent, h)).nodes == Moved(CoreOf(s), i, r, h).nodes;
  }

  lemma OthersKeep(s: State, i: nat, r: Server, h: History, j: nat)
    requires i < |s.servers| && j < |s.servers| && j != i
    requires var c := CoreOf(s); var d := Moved(c, i, r, h);
             ServerOk(c, s.servers[j], j) && HistGrows(c, d) && NewLeaderIs(c, d, i)
    ensures ServerOk(Moved(CoreOf(s), i, r, h), s.servers[j], j)
  {
    BystanderOk(CoreOf(s), Moved(CoreOf(s), i, r, h), s.servers[j], j);
  }

  lemma UpdateKeeps(s: State, i: nat, r: Server, sent: set<Message>, h: History)
    requires Inv(s) && i < |s.servers|
    requires var c := CoreOf(s); var d := Moved(c, i, r, h);
             Good(d, r, i) && HistGrows(c, d) && NewLeaderIs(c, d, i)
    requires forall m :: m in sent ==> MessageOk(Moved(CoreOf(s), i, r, h), m)
    ensures Inv(Update(s, i, r, sent, h)) && Advances(s, Update(s, i, r, sent, h))
  {
    hide CoreInv, ServerOk, MessageOk, DeliveryOk, HistGrows, NewLeaderIs, CoreOf;
    var c, t := CoreOf(s), Update(s, i, r, sent, h);
    var d := Moved(c, i, r, h);
    CoreOfUpdate(s, i, r, sent, h);
    forall j | 0 <= j < |t.servers|
      ensures ServerOk(d, t.servers[j], j)
    {
      if j != i { OthersKeep(s, i, r, h, j); }
    }
    forall m | m in t.net
      ensures MessageOk(d, m)
    {
      if m in s.net { MessageGrows(c, d, m); }
    }
    forall e | e in t.delivered
      ensures DeliveryOk(d, e.msg)
    {
      if e in s.delivered { DeliveryGrows(c, d, e.msg); } else { NewDeliveryOk(d, r, i, e); }
    }
  }

  lemma NewDeliveryOk(c: Core, r: Server, i: nat, e: Delivery)
    requires ServerOk(c, r, i) && e in Deliveries(i, r.applyCh)
    ensures DeliveryOk(c, e.msg)
  {
    AppliedIsSettled(c, r, e.msg);
  }

  lemma Member(s: State, i: nat)
    requires Inv(s) && i < |s.servers|
    ensures Good(CoreOf(s), s.servers[i], i) && Contiguous(s.servers[i].log)
  {
    GoodLog(CoreOf(s), s.servers[i], i);
  }

  lemma InvWellFormed(s: State)
    requires Inv(s)
    ensures WellFormed(s)
  {
    forall i | 0 <= i < |s.servers|
      ensures Contiguous(s.servers[i].log)
    {
      Member(s, i);
    }
  }

  // ----- every step keeps the invariant -----

  lemma RoleChangeKeeps(s: State, i: nat, role: Role)
    requires Inv(s) && i < |s.servers| && role != Leader
    ensures var t := Update(s, i, s.servers[i].(role := role), {}, s.h); Inv(t) && Advances(s, t)
  {
    hide CoreInv, ServerOk, CoreOf, ServersOk, NetOk, DeliveredOk;
    var c, r := CoreOf(s), s.servers[i].(role := role);
    Member(s, i);
    DemoteKeeps(c, s.servers[i], i, role);
    assert Moved(c, i, r, s.h) == c;
    UpdateKeeps(s, i, r, {}, s.h);
  }

  lemma RestartKeeps(s: State, i: nat)
    requires Inv(s) && i < |s.servers|
    ensures var t := Update(s, i, Boot(s.servers[i].disk), {}, s.h).(epochs := s.epochs[i := s.epochs[i] + 1]);
            Inv(t) && Advances(s, t)
  {
    hide CoreInv, ServerOk, CoreOf;
    var c, r := CoreOf(s), Boot(s.servers[i].disk);
    Member(s, i);
    BootKeeps(c, s.servers[i], i);
    assert Moved(c, i, r, s.h) == c;
    UpdateKeeps(s, i, r, {}, s.h);
    var t := Update(s, i, r, {}, s.h);
    assert CoreOf(t.(epochs := s.epochs[i := s.epochs[i] + 1])) == CoreOf(t);
  }

  lemma BeginElectionKeeps(s: State, i: nat)
    requires Inv(s) && WellFormed(s) && i < |s.servers|
    ensures var (r, args) := StartElection(s.servers[i], i);
            var t := Update(s, i, r, VoteRequests(|s.servers|, i, s.epochs[i], args),
                            RecordCampaign(s.h, i, args.term, r.log));
            Inv(t) && Advances(s, t)
  {
    hide CoreInv, ServerOk, CoreOf, ServersOk, NetOk, DeliveredOk;
    var c, srv := CoreOf(s), s.servers[i];
    Member(s, i);
    StartElectionKeeps(c, srv, i);
    var (r, args) := StartElection(srv, i);
    var h := RecordCampaign(s.h, i, args.term, r.log);
    assert Moved(c, i, r, h) == Campaign(c, i);
    UpdateKeeps(s, i, r, VoteRequests(|s.servers|, i, s.epochs[i], args), h);
  }

  lemma ServeVoteKeeps(s: State, rpc: Rpc)
    requires Inv(s) && WellFormed(s) && rpc.VoteRpc? && Request(rpc) in s.net && rpc.dst < |s.servers|
    ensures Inv(DoServeVote(s, rpc)) && Advances(s, DoServeVote(s, rpc))
  {
    hide CoreInv, ServerOk, CoreOf, ServersOk, DeliveredOk, HistGrows;
    var c, srv, v := CoreOf(s), s.servers[rpc.dst], rpc.dst;
    Member(s, v);
    assert MessageOk(c, Request(rpc));
    RequestVoteKeeps(c, srv, v, rpc.src, rpc.vote);
    var (r, reply) := HandleRequestVote(srv, rpc.vote);
    var h := if reply.voteGranted then RecordBallot(s.h, v, r.currentTerm, rpc.vote.candidateId, r.log) else s.h;
    var d := VoteServed(c, srv, v, rpc.vote);
    assert d == Moved(c, v, r, h);
    RpcGrows(c, d, rpc);
    assert NewLeaderIs(c, d, v);
    UpdateKeeps(s, v, r, {VoteResponse(rpc, reply)}, h);
  }

  lemma VoteTakenMoves(c: Core, srv: Server, i: nat, peer: nat, args: VoteArgs, reply: VoteReply)
    requires At(c, srv, i) && Contiguous(srv.log)
    ensures var r := HandleVoteReply(srv, |c.nodes|, peer, args, reply);
            var h := if r.role == Leader && srv.role != Leader && r.currentTerm in r.tallies then
                       RecordElection(c.h, i, r.currentTerm, r.tallies[r.currentTerm].recorded + {i}, srv.log)
                     else c.h;
            var d := VoteTaken(c, srv, i, peer, args, reply);
            d == Moved(c, i, r, h) && NewLeaderIs(c, d, i)
  {
    var r := HandleVoteReply(srv, |c.nodes|, peer, args, reply);
    assert c.nodes[i := c.nodes[i]] == c.nodes;
    assert VoteTaken(c, srv, i, peer, args, reply).nodes == c.nodes[i := NodeOf(r)];
  }

  lemma TakeVoteKeeps(s: State, rpc: Rpc, reply: VoteReply)
    requires Inv(s) && WellFormed(s) && rpc.VoteRpc? && VoteResponse(rpc, reply) in s.net && rpc.src < |s.servers|
    ensures Inv(DoTakeVote(s, rpc, reply)) && Advances(s, DoTakeVote(s, rpc, reply))
  {
    hide CoreInv, ServerOk, CoreOf, ServersOk, DeliveredOk, HistGrows, HandleVoteReply, VoteTaken, NewLeaderIs;
    var c, srv, i := CoreOf(s), s.servers[rpc.src], rpc.src;
    Member(s, i);
    assert MessageOk(c, VoteResponse(rpc, reply));
    VoteReplyKeeps(c, srv, i, rpc.dst, rpc.vote, reply);
    VoteTakenMoves(c, srv, i, rpc.dst, rpc.vote, reply);
    var r := HandleVoteReply(srv, |s.servers|, rpc.dst, rpc.vote, reply);
    var h := if r.role == Leader && srv.role != Leader && r.currentTerm in r.tallies then
               RecordElection(s.h, i, r.currentTerm, r.tallies[r.currentTerm].recorded + {i}, srv.log)
             else s.h;
    UpdateKeeps(s, i, r, {}, h);
  }

  lemma SubmitKeeps(s: State, i: nat, command: Command)
    requires Inv(s) && WellFormed(s) && i < |s.servers|
    ensures var (r, index, term, isLeader) := StartCommand(s.servers[i], command);
            (isLeader ==> r.log != [])
            && var t := Update(s, i, r, {}, if isLeader then RecordAppend(s.h, i, term, r.log) else s.h);
               Inv(t) && Advances(s, t)
  {
    hide CoreInv, ServerOk, CoreOf, ServersOk, NetOk, DeliveredOk, HistGrows;
    var c, srv := CoreOf(s), s.servers[i];
    Member(s, i);
    StartCommandKeeps(c, srv, i, command);
    var (r, index, term, isLeader) := StartCommand(srv, command);
    var h := if isLeader then RecordAppend(s.h, i, term, r.log) else s.h;
    var d := if isLeader then Extend(c, i, command) else c;
    assert d == Moved(c, i, r, h);
    UpdateKeeps(s, i, r, {}, h);
  }

  lemma SendAppendKeeps(s: State, i: nat, peer: nat)
    requires Inv(s) && WellFormed(s) && i < |s.servers| && peer < |s.servers| && i != peer
    requires PrepareAppend(s.servers[i], i, peer).Send?
    ensures var args := PrepareAppend(s.servers[i], i, peer).args;
            var t := Update(s, i, s.servers[i], {Request(AppendRpc(i, s.epochs[i], peer, args))}, s.h);
            Inv(t) && Advances(s, t)
  {
    hide ServerOk, CoreOf, ServersOk, NetOk, DeliveredOk, AppendArgsSent;
    var c, srv := CoreOf(s), s.servers[i];
    Member(s, i);
    PreparedIsSent(c, srv, i, peer);
    assert Moved(c, i, srv, s.h) == c;
    UpdateKeeps(s, i, srv, {Request(AppendRpc(i, s.epochs[i], peer, PrepareAppend(srv, i, peer).args))}, s.h);
  }

  /** The handler's demand on its arguments is met by every message in the network. */
  lemma ServeAppendReady(s: State, rpc: Rpc)
    requires Inv(s) && rpc.AppendRpc? && Request(rpc) in s.net
    ensures rpc.dst < |s.servers| && Contiguous(s.servers[rpc.dst].log)
    ensures AppendArgsOk(s.servers[rpc.dst].log, rpc.append)
  {
    hide ServerOk, CoreOf, ServersOk, DeliveredOk;
    assert MessageOk(CoreOf(s), Request(rpc));
    Member(s, rpc.dst);
    SegmentFits(CoreOf(s), s.servers[rpc.dst], rpc.dst, rpc.src, rpc.append);
  }

  lemma ServeAppendKeeps(s: State, rpc: Rpc, room: bool)
    requires Inv(s) && WellFormed(s) && rpc.AppendRpc? && Request(rpc) in s.net && rpc.dst < |s.servers|
    requires Servable(s.servers[rpc.dst], rpc.append)
    ensures Inv(DoServeAppend(s, rpc, room)) && Advances(s, DoServeAppend(s, rpc, room))
  {
    hide CoreInv, ServerOk, CoreOf, ServersOk, DeliveredOk, HistGrows, AppendArgsSent, AppendReplyOk, HandleAppendEntries;
    var c, srv, v := CoreOf(s), s.servers[rpc.dst], rpc.dst;
    Member(s, v);
    assert MessageOk(c, Request(rpc));
    var d := AppendEntriesKeeps(c, srv, v, rpc.src, rpc.append, room);
    var (r, reply) := HandleAppendEntries(srv, rpc.append, room);
    var h := if reply.success then RecordAck(s.h, v, r.currentTerm, rpc.append.prevLogIndex + |rpc.append.entries|) else s.h;
    RpcGrows(c, d, rpc);
    UpdateKeeps(s, v, r, {AppendResponse(rpc, reply)}, h);
  }

  lemma TakeAppendKeeps(s: State, rpc: Rpc, reply: AppendReply)
    requires Inv(s) && WellFormed(s) && rpc.AppendRpc? && AppendResponse(rpc, reply) in s.net && rpc.src < |s.servers|
    ensures var r := HandleAppendReply(s.servers[rpc.src], |s.servers|, rpc.dst, rpc.append, reply);
            var t := Update(s, rpc.src, r, {}, s.h); Inv(t) && Advances(s, t)
  {
    hide CoreInv, ServerOk, CoreOf, ServersOk, DeliveredOk, HistGrows, AppendArgsSent, AppendReplyOk, HandleAppendReply;
    var c, srv, i := CoreOf(s), s.servers[rpc.src], rpc.src;
    Member(s, i);
    assert MessageOk(c, AppendResponse(rpc, reply));
    AppendReplyKeeps(c, srv, i, rpc.dst, rpc.append, reply);
    var r := HandleAppendReply(srv, |s.servers|, rpc.dst, rpc.append, reply);
    AppendTakenMoves(c, srv, i, rpc.dst, rpc.append, reply);
    UpdateKeeps(s, i, r, {}, s.h);
  }

  lemma AppendTakenMoves(c: Core, srv: Server, i: nat, peer: nat, args: AppendArgs, reply: AppendReply)
    requires At(c, srv, i) && Contiguous(srv.log)
    requires var r := HandleAppendReply(srv, |c.nodes|, peer, args, reply);
             At(if args.term < srv.currentTerm then c else TermSeen(c, i, reply.term), r, i)
    ensures var r := HandleAppendReply(srv, |c.nodes|, peer, args, reply);
            (if args.term < srv.currentTerm then c else TermSeen(c, i, reply.term)) == Moved(c, i, r, c.h)
  {
    assert c.nodes[i := c.nodes[i]] == c.nodes;
  }

  lemma StepKeeps(s: State, step: Step)
    requires Inv(s) && WellFormed(s) && Enabled(s, step)
    ensures Inv(Do(s, step)) && Advances(s, Do(s, step))
  {
    hide Inv, Advances, DoServeVote, DoTakeVote, DoServeAppend, Update;
    match step
    case EnterCandidate(i) => RoleChangeKeeps(s, i, Candidate);
    case StepDown(i) => RoleChangeKeeps(s, i, Follower);
    case BeginElection(i) => BeginElectionKeeps(s, i);
    case ServeVote(rpc) => ServeVoteKeeps(s, rpc);
    case TakeVote(rpc, reply) => TakeVoteKeeps(s, rpc, reply);
    case Submit(i, command) => SubmitKeeps(s, i, command);
    case SendAppend(i, peer) => SendAppendKeeps(s, i, peer);
    case ServeAppend(rpc, room) => ServeAppendKeeps(s, rpc, room);
    case TakeAppend(rpc, reply) => TakeAppendKeeps(s, rpc, reply);
    case Restart(i) => RestartKeeps(s, i);
  }

  lemma InitInv(n: nat)
    ensures Inv(Init(n))
  {
    var s := Init(n);
    var c := CoreOf(s);
    forall i | 0 <= i < n
      ensures NodeOk(c.nodes[i], i, c.h)
      ensures ServerOk(c, s.servers[i], i)
    {
      assert s.servers[i].log[..1] == [SENTINEL];
    }
  }

  lemma {:induction false} RunInv(n: nat, states: seq<State>, steps: seq<Step>, k: nat)
    requires Run(n, states, steps) && k < |states|
    ensures Inv(states[k]) && |states[k].servers| == n
  {
    hide Inv, Enabled, Do;
    if k == 0 {
      InitInv(n);
    } else {
      RunInv(n, states, steps, k - 1);
      assert Next(states[k - 1], steps[k - 1], states[k]);
      StepKeeps(states[k - 1], steps[k - 1]);
    }
  }

  lemma AdvancesReflexive(s: State)
    ensures Advances(s, s)
  {
  }

  lemma {:induction false} RunAdvances(n: nat, states: seq<State>, steps: seq<Step>, j: nat, k: nat)
    requires Run(n, states, steps) && j <= k < |states|
    ensures Advances(states[j], states[k])
  {
    hide Run, Inv, Enabled, Do, Advances;
    AdvancesReflexive(states[j]);
    if j < k {
      RunAdvances(n, states, steps, j, k - 1);
      RunInv(n, states, steps, k - 1);
      LastStepAdvances(n, states, steps, k);
      AdvancesTransitive(states[j], states[k - 1], states[k]);
    }
  }

  lemma LastStepAdvances(n: nat, states: seq<State>, steps: seq<Step>, k: nat)
    requires Run(n, states, steps) && 0 < k < |states| && Inv(states[k - 1])
    ensures Advances(states[k - 1], states[k])
  {
    hide Inv, Enabled, Advances, Do;
    assert Next(states[k - 1], steps[k - 1], states[k]);
    StepKeeps(states[k - 1], steps[k - 1]);
  }

  lemma AdvancesTransitive(a: State, b: State, c: State)
    requires Advances(a, b) && Advances(b, c)
    ensures Advances(a, c)
  {
    HistGrowsTransitive(CoreOf(a), CoreOf(b), CoreOf(c));
  }
}
