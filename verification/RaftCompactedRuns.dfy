/** Runs of a cluster whose servers compact their logs, crash, and come back with what is left of them.
    Each is followed by a run of whole logs, of which every state is the uncut form of the cluster's:
    all that differs is where a leader looks next.  So State Machine Safety holds for it too. */
module RaftCompactedRuns {
  import opened RaftServer
  import opened RaftCore
  import opened RaftCommitted
  import opened RaftServerInv
  import opened RaftHandlers
  import opened RaftReplication
  import opened RaftSystem
  import opened RaftSafety
  import opened RaftCompactionRuns

  // ----- the cluster that compacts -----

  /** A step as before, or Compaction past its guard at an index this incarnation has applied.  A leader
      sends no snapshot: the steps that would are not taken. */
  datatype Move = Take(step: Step) | Compaction(i: nat, index: nat)

  predicate Allowed(c: State, move: Move) {
    WellFormed(c)
    && match move
       case Take(step) => Enabled(c, step)
       case Compaction(i, index) =>
         i < |c.servers| && 0 < index <= c.servers[i].lastApplied
         && c.servers[i].log[0].index <= index <= LastIndex(c.servers[i].log)
  }

  function Make(c: State, move: Move): State
    requires Allowed(c, move)
  {
    match move
    case Take(step) => Do(c, step)
    case Compaction(i, index) => Update(c, i, Compact(c.servers[i], index), {}, c.h)
  }

  ghost predicate CompactingRun(n: nat, states: seq<State>, moves: seq<Move>) {
    |states| == |moves| + 1 && states[0] == Init(n)
    && forall k :: 0 <= k < |moves| ==> Allowed(states[k], moves[k]) && states[k + 1] == Make(states[k], moves[k])
  }

  // ----- the cluster of whole logs that follows it -----

  /** A step as before; a leader looks again from another entry of its log; or a server only takes notice
      of the term of an AppendEntries. */
  datatype Whole = Real(step: Step) | Probe(i: nat, peer: nat, next: nat) | Hear(rpc: Rpc, room: bool)

  function Probed(s: State, i: nat, peer: nat, next: nat): State
    requires i < |s.servers|
  {
    Update(s, i, s.servers[i].(nextIndex := s.servers[i].nextIndex[peer := next]), {}, s.h)
  }

  function Heard(s: State, rpc: Rpc, room: bool): State
    requires rpc.AppendRpc? && rpc.dst < |s.servers|
  {
    Update(s, rpc.dst, Listening(s.servers[rpc.dst], rpc.append, room), {}, s.h)
  }

  ghost predicate WholeNext(s: State, m: Whole, t: State) {
    match m
    case Real(step) => Next(s, step, t)
    case Probe(i, peer, next) =>
      i < |s.servers| && peer < |s.servers| && s.servers[i].role == Leader && 1 <= next <= |s.servers[i].log|
      && t == Probed(s, i, peer, next)
    case Hear(rpc, room) =>
      rpc.AppendRpc? && Request(rpc) in s.net && rpc.dst < |s.servers| && rpc.append.term >= s.servers[rpc.dst].currentTerm
      && t == Heard(s, rpc, room)
  }

  ghost predicate WholeRun(n: nat, states: seq<State>, moves: seq<Whole>) {
    |states| == |moves| + 1 && states[0] == Init(n)
    && forall k :: 0 <= k < |moves| ==> WholeNext(states[k], moves[k], states[k + 1])
  }

  /** What every state of such a run has, and what every step of it keeps. */
  ghost predicate Sound(s: State) {
    Inv(s) && EpochsOk(s) && WellFormed(s) && HandedOn(s)
  }

  /** What a server hands over is on record as delivered. */
  ghost predicate HandedOn(s: State) {
    forall i :: 0 <= i < |s.servers| ==> Deliveries(i, s.servers[i].applyCh) <= s.delivered
  }

  lemma UpdateHandsOn(s: State, i: nat, r: Server, sent: set<Message>, h: History)
    requires HandedOn(s) && i < |s.servers|
    ensures HandedOn(Update(s, i, r, sent, h))
  {
    hide Deliveries;
  }

  lemma StepHandsOn(s: State, step: Step)
    requires HandedOn(s) && WellFormed(s) && Enabled(s, step)
    ensures HandedOn(Do(s, step))
  {
    hide Deliveries, HandleRequestVote, HandleVoteReply, HandleAppendEntries, HandleAppendReply, StartElection, StartCommand,
         PrepareAppend, Boot, AppendArgsOk, Contiguous;
  }

  lemma SoundFrom(s: State)
    requires Inv(s) && EpochsOk(s) && HandedOn(s)
    ensures Sound(s)
  {
    InvWellFormed(s);
  }

  lemma ProbeKeeps(s: State, i: nat, peer: nat, next: nat)
    requires Sound(s) && i < |s.servers| && 1 <= next <= |s.servers[i].log|
    ensures var t := Probed(s, i, peer, next); Sound(t) && Advances(s, t)
  {
    hide CoreInv, ServerOk, CoreOf, ServersOk, NetOk, DeliveredOk, HistGrows;
    var c, srv := CoreOf(s), s.servers[i];
    var r := srv.(nextIndex := srv.nextIndex[peer := next]);
    Member(s, i);
    BackedUpOk(c, srv, i, peer, next);
    SameCore(c, i, r, s.h);
    UpdateKeeps(s, i, r, {}, s.h);
    UpdateHandsOn(s, i, r, {}, s.h);
    SoundFrom(Probed(s, i, peer, next));
  }

  lemma SameCore(c: Core, i: nat, r: Server, h: History)
    requires i < |c.nodes| && c.nodes[i] == NodeOf(r) && h == c.h
    ensures Moved(c, i, r, h) == c && HistGrows(c, c) && NewLeaderIs(c, c, i)
  {
    assert c.nodes[i := c.nodes[i]] == c.nodes;
  }

  lemma HearKeeps(s: State, rpc: Rpc, room: bool)
    requires Sound(s) && rpc.AppendRpc? && rpc.dst < |s.servers|
    ensures var t := Heard(s, rpc, room); Sound(t) && Advances(s, t)
  {
    hide CoreInv, ServerOk, CoreOf, ServersOk, NetOk, DeliveredOk, HistGrows;
    var v := rpc.dst;
    var c, srv, t := CoreOf(s), s.servers[v], rpc.append.term;
    Member(s, v);
    CheckTermKeeps(c, srv, v, t);
    var d, s1 := TermSeen(c, v, t), CheckCurrentTerm(srv, t);
    var r := Listening(srv, rpc.append, room);
    if s1.role != Leader && room { DemoteKeeps(d, s1, v, Follower); }
    HeardCore(c, v, srv, t, r);
    UpdateKeeps(s, v, r, {}, s.h);
    UpdateHandsOn(s, v, r, {}, s.h);
    SoundFrom(Heard(s, rpc, room));
  }

  lemma HeardCore(c: Core, i: nat, srv: Server, t: nat, r: Server)
    requires At(c, srv, i) && NodeOf(r) == NodeOf(CheckCurrentTerm(srv, t))
    ensures TermSeen(c, i, t) == Moved(c, i, r, c.h) && NewLeaderIs(c, TermSeen(c, i, t), i)
  {
    assert c.nodes[i := c.nodes[i]] == c.nodes;
  }

  lemma RealKeeps(s: State, step: Step)
    requires Sound(s) && Enabled(s, step)
    ensures Sound(Do(s, step)) && Advances(s, Do(s, step))
  {
    hide Inv, Enabled, Do, Advances, EpochsOk, WellFormed, HandedOn;
    StepKeeps(s, step);
    EpochsStep(s, step);
    StepHandsOn(s, step);
    SoundFrom(Do(s, step));
  }

  lemma WholeKeeps(s: State, m: Whole, t: State)
    requires Sound(s) && WholeNext(s, m, t)
    ensures Sound(t) && Advances(s, t)
  {
    hide Sound, Enabled, Do, Advances, Probed, Heard;
    match m
    case Real(step) => RealKeeps(s, step);
    case Probe(i, peer, next) => ProbeKeeps(s, i, peer, next);
    case Hear(rpc, room) => HearKeeps(s, rpc, room);
  }

  lemma StartsSound(n: nat)
    ensures Sound(Init(n))
  {
    hide Inv;
    InitInv(n);
  }

  lemma {:induction false} WholeRunSound(n: nat, states: seq<State>, moves: seq<Whole>, j: nat, k: nat)
    requires WholeRun(n, states, moves) && j <= k < |states|
    ensures Sound(states[k]) && Advances(states[j], states[k])
    decreases k
  {
    hide Sound, WholeNext, Advances;
    StartsSound(n);
    AdvancesReflexive(states[k]);
    if 0 < k {
      WholeRunSound(n, states, moves, if j < k then j else k - 1, k - 1);
      assert WholeNext(states[k - 1], moves[k - 1], states[k - 1 + 1]);
      WholeKeeps(states[k - 1], moves[k - 1], states[k]);
      AdvancesTransitive(states[if j < k then j else k - 1], states[k - 1], states[k]);
    }
  }
}
