/** A cluster of Raft servers over a network that loses, delays, reorders and duplicates
    messages, with crashes that keep only what was persisted.  Each step is one region the
    implementation runs under its mutex.  The history is written and never read. */
module RaftSystem {
  import opened Commands
  import opened RaftServer
  import opened RaftCore
  import opened RaftCoreSteps

  /** A call in flight.  `epoch` is the incarnation that made it: a restarted server gets fresh
      end points, so replies to its predecessor do not reach it. */
  datatype Rpc =
    | VoteRpc(src: nat, epoch: nat, dst: nat, vote: VoteArgs)
    | AppendRpc(src: nat, epoch: nat, dst: nat, append: AppendArgs)

  datatype Message =
    | Request(rpc: Rpc)
    | VoteResponse(rpc: Rpc, voteReply: VoteReply)
    | AppendResponse(rpc: Rpc, appendReply: AppendReply)

  /** A command handed to the service of one server. */
  datatype Delivery = Delivery(server: nat, msg: ApplyMsg)

  datatype State = State(
    servers: seq<Server>,
    epochs: seq<nat>,
    net: set<Message>,            // grows; any message may be received at any time, or never
    delivered: set<Delivery>,     // over all incarnations
    h: History)

  datatype Step =
    | EnterCandidate(i: nat)                            // runAsCandidate's first region
    | StepDown(i: nat)                                  // runAsFollower's first region
    | BeginElection(i: nat)                             // runAsCandidate's second region
    | ServeVote(rpc: Rpc)                               // RequestVote
    | TakeVote(rpc: Rpc, voteReply: VoteReply)          // sendRequestVoteAndGetResponse, after the call
    | Submit(i: nat, command: Command)                  // Start
    | SendAppend(i: nat, peer: nat)                     // sendAppendEntriesTo, before the call
    | ServeAppend(rpc: Rpc, room: bool)                 // AppendEntries
    | TakeAppend(rpc: Rpc, appendReply: AppendReply)    // sendAppendEntriesTo, after the call
    | Restart(i: nat)                                   // crash1 and start1

  function Init(n: nat): State {
    State(seq(n, i => Boot(None)), seq(n, i => 0), {}, {}, History(map[], map[], map[], map[], map[]))
  }

  predicate WellFormed(s: State) {
    |s.epochs| == |s.servers| && forall i :: 0 <= i < |s.servers| ==> Contiguous(s.servers[i].log)
  }

  /** The entries of a request that is not refused for its term fit the receiver's log. */
  predicate Servable(server: Server, args: AppendArgs)
    requires Contiguous(server.log)
  {
    args.term >= server.currentTerm ==> AppendArgsOk(server.log, args)
  }

  predicate Enabled(s: State, step: Step)
    requires WellFormed(s)
  {
    var n := |s.servers|;
    match step
    case EnterCandidate(i) => i < n && s.servers[i].role != Leader
    case StepDown(i) => i < n
    case BeginElection(i) => i < n && s.servers[i].role != Leader
    case ServeVote(rpc) => rpc.VoteRpc? && Request(rpc) in s.net && rpc.dst < n
    case TakeVote(rpc, reply) =>
      rpc.VoteRpc? && VoteResponse(rpc, reply) in s.net && rpc.src < n && s.epochs[rpc.src] == rpc.epoch
    case Submit(i, command) => i < n
    case SendAppend(i, peer) =>
      i < n && peer < n && i != peer && PrepareAppend(s.servers[i], i, peer).Send?
    case ServeAppend(rpc, room) =>
      rpc.AppendRpc? && Request(rpc) in s.net && rpc.dst < n
      && Servable(s.servers[rpc.dst], rpc.append)
    case TakeAppend(rpc, reply) =>
      rpc.AppendRpc? && AppendResponse(rpc, reply) in s.net && rpc.src < n && s.epochs[rpc.src] == rpc.epoch
    case Restart(i) => i < n && match s.servers[i].disk case None => true case Some(d) => Contiguous(d.log)
  }

  function Deliveries(i: nat, sent: seq<ApplyMsg>): set<Delivery> {
    set m | m in sent :: Delivery(i, m)
  }

  /** Server i becomes `server`, sends `sent`, and the history becomes `h`. */
  function Update(s: State, i: nat, server: Server, sent: set<Message>, h: History): State
    requires i < |s.servers|
  {
    s.(servers := s.servers[i := server], net := s.net + sent,
       delivered := s.delivered + Deliveries(i, server.applyCh), h := h)
  }

  function VoteRequests(n: nat, i: nat, epoch: nat, args: VoteArgs): set<Message> {
    set p | p in PeerIds(n) && p != i :: Request(VoteRpc(i, epoch, p, args))
  }

  function DoServeVote(s: State, rpc: Rpc): State
    requires WellFormed(s) && rpc.VoteRpc? && rpc.dst < |s.servers|
  {
    var (server, reply) := HandleRequestVote(s.servers[rpc.dst], rpc.vote);
    Update(s, rpc.dst, server, {VoteResponse(rpc, reply)},
           if reply.voteGranted then
             RecordBallot(s.h, rpc.dst, server.currentTerm, rpc.vote.candidateId, server.log)
           else s.h)
  }

  function DoTakeVote(s: State, rpc: Rpc, reply: VoteReply): State
    requires WellFormed(s) && rpc.VoteRpc? && rpc.src < |s.servers|
  {
    var i := rpc.src;
    var server := HandleVoteReply(s.servers[i], |s.servers|, rpc.dst, rpc.vote, reply);
    Update(s, i, server, {},
           if server.role == Leader && s.servers[i].role != Leader && server.currentTerm in server.tallies then
             RecordElection(s.h, i, server.currentTerm,
                            server.tallies[server.currentTerm].recorded + {i}, s.servers[i].log)
           else s.h)
  }

  function DoServeAppend(s: State, rpc: Rpc, room: bool): State
    requires WellFormed(s) && rpc.AppendRpc? && rpc.dst < |s.servers|
    requires Servable(s.servers[rpc.dst], rpc.append)
  {
    var (server, reply) := HandleAppendEntries(s.servers[rpc.dst], rpc.append, room);
    Update(s, rpc.dst, server, {AppendResponse(rpc, reply)},
           if reply.success then
             RecordAck(s.h, rpc.dst, server.currentTerm, rpc.append.prevLogIndex + |rpc.append.entries|)
           else s.h)
  }

  function Do(s: State, step: Step): State
    requires WellFormed(s) && Enabled(s, step)
  {
    var n := |s.servers|;
    match step
    case EnterCandidate(i) => Update(s, i, s.servers[i].(role := Candidate), {}, s.h)
    case StepDown(i) => Update(s, i, s.servers[i].(role := Follower), {}, s.h)
    case BeginElection(i) =>
      var (server, args) := StartElection(s.servers[i], i);
      Update(s, i, server, VoteRequests(n, i, s.epochs[i], args),
             RecordCampaign(s.h, i, args.term, server.log))
    case ServeVote(rpc) => DoServeVote(s, rpc)
    case TakeVote(rpc, reply) => DoTakeVote(s, rpc, reply)
    case Submit(i, command) =>
      var (server, index, term, isLeader) := StartCommand(s.servers[i], command);
      Update(s, i, server, {}, if isLeader then RecordAppend(s.h, i, term, server.log) else s.h)
    case SendAppend(i, peer) =>
      var args := PrepareAppend(s.servers[i], i, peer).args;
      Update(s, i, s.servers[i], {Request(AppendRpc(i, s.epochs[i], peer, args))}, s.h)
    case ServeAppend(rpc, room) => DoServeAppend(s, rpc, room)
    case TakeAppend(rpc, reply) =>
      var server := HandleAppendReply(s.servers[rpc.src], n, rpc.dst, rpc.append, reply);
      Update(s, rpc.src, server, {}, s.h)
    case Restart(i) =>
      Update(s, i, Boot(s.servers[i].disk), {}, s.h).(epochs := s.epochs[i := s.epochs[i] + 1])
  }

  ghost predicate Next(s: State, step: Step, t: State) {
    WellFormed(s) && Enabled(s, step) && t == Do(s, step)
  }

  /** A finite run: one more state than steps, from the initial state of an n-server cluster. */
  ghost predicate Run(n: nat, states: seq<State>, steps: seq<Step>) {
    |states| == |steps| + 1 && states[0] == Init(n)
    && forall k :: 0 <= k < |steps| ==> Next(states[k], steps[k], states[k + 1])
  }
}
