/** What holds of one server beside its durable state, and that each handler keeps it while
    moving the core by one of its transitions. */
module RaftServerInv {
  import opened Commands
  import opened RaftServer
  import opened RaftCore
  import opened RaftCoreSteps
  import opened RaftCommitted
  import opened RaftReconcile

  function NodeOf(srv: Server): Node {
    Node(srv.currentTerm, srv.votedFor, srv.log)
  }

  // ----- the invariant of one server -----

  /** What is on disk is what is in memory: everything durable is persisted before replying. */
  ghost predicate Synced(srv: Server) {
    match srv.disk
    case None => srv.currentTerm == 0 && srv.votedFor == -1 && srv.log == [SENTINEL]
    case Some(d) => d == Durable(srv.currentTerm, srv.votedFor, srv.log)
  }

  ghost predicate TallyOk(c: Core, y: Tally, i: nat, t: nat) {
    i !in y.recorded && y.count == |y.recorded| + 1 && y.recorded <= PeerIds(|c.nodes|)
    && VotedFor(c.h, y.recorded + {i}, t, i)
  }

  /** A tally counts distinct servers that really voted. */
  ghost predicate TalliesOk(c: Core, srv: Server, i: nat) {
    forall t :: t in srv.tallies ==> TallyOk(c, srv.tallies[t], i, t)
  }

  /** matchIndex only claims what was acknowledged; nextIndex never leaves the log's range. */
  ghost predicate ProgressOk(c: Core, srv: Server, i: nat) {
    (forall j :: j in srv.matchIndex ==>
       srv.matchIndex[j] == 0 || (j != i && Acked(c.h, j, srv.currentTerm, srv.matchIndex[j])))
    && (forall j :: j in srv.nextIndex ==> 1 <= srv.nextIndex[j] <= |srv.log|)
  }

  ghost predicate LeaderOk(c: Core, srv: Server, i: nat) {
    (Leads(c, i) ==> ProgressOk(c, srv, i))
    && (srv.role == Leader ==> Leads(c, i) && forall j: nat :: j < |c.nodes| ==> j in srv.nextIndex)
  }

  /** This incarnation has handed over exactly the commands at 1, 2, ..., lastApplied. */
  ghost predicate AppliedInOrder(srv: Server) {
    |srv.applyCh| == srv.lastApplied < |srv.log|
    && forall k :: 0 <= k < |srv.applyCh| ==> srv.applyCh[k] == ApplyMsg(k + 1, srv.log[k + 1].command)
  }

  ghost predicate CommitOk(c: Core, srv: Server) {
    srv.commitIndex < |srv.log| && Settled(c, srv.log[..srv.commitIndex + 1], srv.currentTerm)
    && srv.lastApplied == srv.commitIndex && AppliedInOrder(srv)
  }

  ghost predicate ServerOk(c: Core, srv: Server, i: nat) {
    Synced(srv) && TalliesOk(c, srv, i) && LeaderOk(c, srv, i) && CommitOk(c, srv)
  }

  ghost predicate At(c: Core, srv: Server, i: nat) {
    i < |c.nodes| && c.nodes[i] == NodeOf(srv)
  }

  ghost predicate Good(c: Core, srv: Server, i: nat) {
    CoreInv(c) && At(c, srv, i) && ServerOk(c, srv, i)
  }

  lemma GoodLog(c: Core, srv: Server, i: nat)
    requires NodesOk(c) && At(c, srv, i)
    ensures LogOk(srv.log, c.h.termLog) && Uncompacted(srv.log) && Contiguous(srv.log)
    ensures srv.log[0] == SENTINEL && LastIndex(srv.log) == |srv.log| - 1 && LastTerm(srv.log) <= srv.currentTerm
  {
    assert NodeOk(c.nodes[i], i, c.h);
  }

  // ----- what growth of the history preserves -----

  lemma VotedForGrows(c: Core, d: Core, voters: set<nat>, t: nat, candidate: nat)
    requires HistGrows(c, d) && VotedFor(c.h, voters, t, candidate)
    ensures VotedFor(d.h, voters, t, candidate)
  {
  }

  lemma TalliesGrow(c: Core, d: Core, srv: Server, i: nat)
    requires HistGrows(c, d) && TalliesOk(c, srv, i)
    ensures TalliesOk(d, srv, i)
  {
    forall t | t in srv.tallies
      ensures TallyOk(d, srv.tallies[t], i, t)
    {
      assert TallyOk(c, srv.tallies[t], i, t);
      VotedForGrows(c, d, srv.tallies[t].recorded + {i}, t, i);
    }
  }

  lemma ProgressGrows(c: Core, d: Core, srv: Server, i: nat)
    requires HistGrows(c, d) && ProgressOk(c, srv, i)
    ensures ProgressOk(d, srv, i)
  {
    forall j | j in srv.matchIndex && srv.matchIndex[j] != 0
      ensures Acked(d.h, j, srv.currentTerm, srv.matchIndex[j])
    {
      assert Acked(c.h, j, srv.currentTerm, srv.matchIndex[j]);
    }
  }

  /** A server that a step does not touch stays in order. */
  lemma BystanderOk(c: Core, d: Core, srv: Server, j: nat)
    requires ServerOk(c, srv, j) && At(c, srv, j) && At(d, srv, j) && HistGrows(c, d)
    requires Leads(d, j) ==> Leads(c, j)
    ensures ServerOk(d, srv, j)
  {
    TalliesGrow(c, d, srv, j);
    SettledGrows(c, d, srv.log[..srv.commitIndex + 1], srv.currentTerm, srv.currentTerm);
    if Leads(c, j) { ProgressGrows(c, d, srv, j); }
  }

  // ----- applying -----

  lemma {:induction false} ApplyLogExact(srv: Server)
    requires Uncompacted(srv.log) && srv.lastApplied <= srv.commitIndex < |srv.log|
    requires AppliedInOrder(srv) && Contiguous(srv.log)
    ensures var r := ApplyLog(srv);
            r == srv.(lastApplied := srv.commitIndex, applyCh := r.applyCh)
            && AppliedInOrder(r) && srv.applyCh <= r.applyCh
    decreases srv.commitIndex - srv.lastApplied
  {
    if srv.commitIndex > srv.lastApplied {
      var k := srv.lastApplied + 1;
      var e := srv.log[k];
      assert GetLogEntry(srv.log, k) == Some(e);
      ApplyLogExact(srv.(lastApplied := k, applyCh := srv.applyCh + [ApplyMsg(e.index, e.command)]));
    }
  }

  /** Raising commitIndex within a settled part of the log, and applying it. */
  lemma AdvanceKeeps(c: Core, srv: Server, i: nat, target: nat)
    requires At(c, srv, i) && NodesOk(c) && ServerOk(c, srv, i)
    requires srv.commitIndex <= target < |srv.log| && Settled(c, srv.log[..target + 1], srv.currentTerm)
    ensures Contiguous(srv.log)
    ensures var r := ApplyLog(srv.(commitIndex := target));
            ServerOk(c, r, i) && At(c, r, i)
            && r == srv.(commitIndex := target, lastApplied := target, applyCh := r.applyCh)
  {
    GoodLog(c, srv, i);
    ApplyLogExact(srv.(commitIndex := target));
  }

  // ----- learning of a higher term -----

  function TermSeen(c: Core, i: nat, t: nat): Core
    requires i < |c.nodes|
  {
    if t > c.nodes[i].term then BumpTerm(c, i, t) else c
  }

  lemma BumpedOk(c: Core, srv: Server, i: nat, t: nat)
    requires ServerOk(c, srv, i) && At(c, srv, i) && ElectionLeaders(c) && t > srv.currentTerm
    ensures var d, r := BumpTerm(c, i, t), CheckCurrentTerm(srv, t);
            HistGrows(c, d) && At(d, r, i) && ServerOk(d, r, i)
  {
    var d, r := BumpTerm(c, i, t), CheckCurrentTerm(srv, t);
    TalliesGrow(c, d, srv, i);
    assert r.tallies == srv.tallies;
    SettledGrows(c, d, srv.log[..srv.commitIndex + 1], srv.currentTerm, t);
    NotYetLeader(c, i, t);
  }

  lemma CheckTermKeeps(c: Core, srv: Server, i: nat, t: nat)
    requires Good(c, srv, i)
    ensures var d := TermSeen(c, i, t); Good(d, CheckCurrentTerm(srv, t), i) && HistGrows(c, d) && d.h == c.h
  {
    if t > srv.currentTerm {
      BumpTermKeeps(c, i, t);
      BumpedOk(c, srv, i, t);
    }
  }

  /** A server cannot have led a term it has not reached. */
  lemma NotYetLeader(c: Core, i: nat, t: nat)
    requires ElectionLeaders(c) && i < |c.nodes| && t > c.nodes[i].term
    ensures t in c.h.elections ==> c.h.elections[t].leader != i
  {
  }
}
