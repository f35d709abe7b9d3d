/** No reachable state is a dead end: as long as the servers of some majority run and reach each other,
    they can elect a leader and commit a command, whatever was lost and wherever their logs stand. */
module RaftProgress {
  import opened Commands
  import opened RaftServer
  import opened RaftServerInv
  import opened RaftLaws
  import opened RaftSafety
  import opened RaftSystem
  import opened RaftTheorems
  import RaftBackup
  import RaftMajority
  import Sets

  // ----- continuations in which only some servers take part -----

  /** Neither a crash nor a change of role out of the blue, and nobody outside q takes part. */
  predicate Among(step: Step, q: set<nat>) {
    match step
    case BeginElection(i) => i in q
    case ServeVote(rpc) => rpc.src in q && rpc.dst in q
    case TakeVote(rpc, _) => rpc.src in q && rpc.dst in q
    case Submit(i, _) => i in q
    case SendAppend(i, peer) => i in q && peer in q
    case ServeAppend(rpc, _) => rpc.src in q && rpc.dst in q
    case TakeAppend(rpc, _) => rpc.src in q && rpc.dst in q
    case _ => false
  }

  ghost predicate Path(states: seq<State>, steps: seq<Step>, q: set<nat>) {
    |states| == |steps| + 1 && forall k :: 0 <= k < |steps| ==> Next(states[k], steps[k], states[k + 1]) && Among(steps[k], q)
  }

  ghost predicate Leads(states: seq<State>, steps: seq<Step>, s: State, q: set<nat>, t: State) {
    Path(states, steps, q) && states[0] == s && states[|states| - 1] == t
  }

  ghost predicate Reaches(s: State, q: set<nat>, t: State) {
    exists states, steps :: Leads(states, steps, s, q, t)
  }

  lemma Stay(s: State, q: set<nat>)
    ensures Reaches(s, q, s)
  {
    assert Leads([s], [], s, q, s);
  }

  lemma Join(s: State, q: set<nat>, m: State, t: State)
    requires Reaches(s, q, m) && Reaches(m, q, t)
    ensures Reaches(s, q, t)
  {
    hide Next;
    var a, x :| Leads(a, x, s, q, m);
    var b, y :| Leads(b, y, m, q, t);
    Concat(a, x, b, y, q);
    assert Leads(a + b[1..], x + y, s, q, t);
  }

  lemma Concat(a: seq<State>, x: seq<Step>, b: seq<State>, y: seq<Step>, q: set<nat>)
    requires Path(a, x, q) && Path(b, y, q) && a[|a| - 1] == b[0]
    ensures Path(a + b[1..], x + y, q)
  {
    hide Next;
    var c, z := a + b[1..], x + y;
    forall k | 0 <= k < |z| ensures Next(c[k], z[k], c[k + 1]) && Among(z[k], q) {
      if k < |x| {
        assert c[k] == a[k] && c[k + 1] == a[k + 1];
      } else {
        assert c[k] == b[k - |x|] && c[k + 1] == b[k - |x| + 1] && z[k] == y[k - |x|];
      }
    }
  }

  /** All but the servers of d are as they were, and no message is gone. */
  ghost predicate Only(s: State, t: State, d: set<nat>) {
    |t.servers| == |s.servers| && t.epochs == s.epochs && s.net <= t.net
    && forall j: nat :: j < |s.servers| && j !in d ==> t.servers[j] == s.servers[j]
  }

  lemma OnlySelf(s: State, d: set<nat>)
    ensures Only(s, s, d)
  {
  }

  lemma OnlyJoin(s: State, m: State, t: State, d: set<nat>, e: set<nat>, all: set<nat>)
    requires Only(s, m, d) && Only(m, t, e) && d <= all && e <= all
    ensures Only(s, t, all)
  {
  }

  lemma Move(s: State, step: Step, q: set<nat>)
    requires Inv(s) && WellFormed(s) && Enabled(s, step) && Among(step, q)
    ensures Inv(Do(s, step)) && Reaches(s, q, Do(s, step))
  {
    hide Inv, Enabled, Do, WellFormed;
    StepKeeps(s, step);
    var t := Do(s, step);
    assert Next(s, step, t);
    assert Leads([s, t], [step], s, q, t);
  }

  lemma Updated(s: State, i: nat, r: Server, sent: set<Message>, t: State)
    requires i < |s.servers| && t == Update(s, i, r, sent, t.h)
    ensures Only(s, t, {i}) && t.servers[i] == r && sent <= t.net
  {
    hide Deliveries;
  }

  lemma LogStands(s: State, i: nat)
    requires Inv(s) && i < |s.servers|
    ensures WellFormed(s)
    ensures var f := s.servers[i];
            Contiguous(f.log) && f.log[0] == SENTINEL && f.log[|f.log| - 1].index == |f.log| - 1 && f.commitIndex < |f.log|
            && (f.role == Leader ==> OwnRowZero(f, i) && InReach(f, |s.servers|))
  {
    InvWellFormed(s);
    Member(s, i);
    GoodLog(CoreOf(s), s.servers[i], i);
  }

  ghost predicate OwnRowZero(f: Server, i: nat) { i in f.matchIndex ==> f.matchIndex[i] == 0 }

  ghost predicate InReach(f: Server, n: nat) {
    forall p: nat :: p < n ==> p in f.nextIndex && 1 <= f.nextIndex[p] <= |f.log|
  }

  // ----- campaigning -----

  function Ballot(epoch: nat, i: nat, j: nat, term: nat, log: seq<Entry>): Rpc
    requires |log| > 0
  {
    VoteRpc(i, epoch, j, VoteArgs(term, i, log[|log| - 1].index, log[|log| - 1].term))
  }

  /** Server i asks everybody for their vote in this term. */
  ghost predicate Asks(s: State, i: nat, term: nat) {
    i < |s.servers| && |s.epochs| == |s.servers| && |s.servers[i].log| > 0
    && s.servers[i].role == Candidate && s.servers[i].currentTerm == term
    && term in s.servers[i].tallies && s.servers[i].tallies[term] == Tally({}, 1)
    && forall j: nat :: j < |s.servers| && j != i ==> Request(Ballot(s.epochs[i], i, j, term, s.servers[i].log)) in s.net
  }

  lemma AskOnce(s: State, i: nat, q: set<nat>) returns (t: State)
    requires Inv(s) && i < |s.servers| && i in q && s.servers[i].role != Leader
    ensures Inv(t) && Reaches(s, q, t) && Only(s, t, {i})
    ensures Asks(t, i, s.servers[i].currentTerm + 1) && t.servers[i].log == s.servers[i].log
  {
    hide Inv, CoreOf, StartElection, Contiguous;
    LogStands(s, i);
    ElectionMeans(s.servers[i], i);
    var step := BeginElection(i);
    Move(s, step, q);
    t := Do(s, step);
    var (r, args) := StartElection(s.servers[i], i);
    Updated(s, i, r, VoteRequests(|s.servers|, i, s.epochs[i], args), t);
    forall j: nat | j < |s.servers| && j != i ensures Request(Ballot(s.epochs[i], i, j, args.term, r.log)) in t.net {
      AskedIs(|s.servers|, i, s.epochs[i], args, j);
    }
  }

  lemma AskedIs(n: nat, i: nat, epoch: nat, args: VoteArgs, j: nat)
    requires j < n && j != i
    ensures Request(VoteRpc(i, epoch, j, args)) in VoteRequests(n, i, epoch, args)
  {
  }

  /** ... in a term as large as need be. */
  lemma {:induction false} Ask(s: State, i: nat, q: set<nat>, least: nat) returns (t: State, term: nat)
    requires Inv(s) && i < |s.servers| && i in q && s.servers[i].role != Leader
    ensures Inv(t) && Reaches(s, q, t) && Only(s, t, {i})
    ensures term >= least && Asks(t, i, term) && t.servers[i].log == s.servers[i].log
    decreases least - s.servers[i].currentTerm
  {
    hide Inv, Reaches;
    t := AskOnce(s, i, q);
    term := s.servers[i].currentTerm + 1;
    if term < least {
      var m := t;
      t, term := Ask(m, i, q, least);
      Join(s, q, m, t);
    }
  }

  lemma {:induction false} TermAbove(servers: seq<Server>) returns (t: nat)
    ensures forall j :: 0 <= j < |servers| ==> servers[j].currentTerm < t
  {
    if servers == [] {
      t := 0;
    } else {
      var n := |servers| - 1;
      var u := TermAbove(servers[..n]);
      t := Greater(u, servers[n].currentTerm + 1);
      assert forall j :: 0 <= j < n ==> servers[..n][j] == servers[j];
    }
  }

  // ----- voting -----

  /** The owner of `log` may lead the owner of `other`. */
  predicate UpTo(log: seq<Entry>, other: seq<Entry>)
    requires |log| > 0 && |other| > 0
  {
    var a, b := log[|log| - 1], other[|other| - 1];
    a.term > b.term || (a.term == b.term && a.index >= b.index)
  }

  predicate FollowsIn(f: Server, term: nat) { f.role == Follower && f.currentTerm == term }

  /** A server that is asked in a new term follows in it, and grants its vote if it may. */
  lemma Vote(s: State, i: nat, j: nat, q: set<nat>, epoch: nat, term: nat, log: seq<Entry>) returns (t: State)
    requires Inv(s) && i in q && j in q && j < |s.servers| && |log| > 0 && |s.servers[j].log| > 0
    requires Request(Ballot(epoch, i, j, term, log)) in s.net && s.servers[j].currentTerm < term
    ensures Inv(t) && Reaches(s, q, t) && Only(s, t, {j})
    ensures FollowsIn(t.servers[j], term) && t.servers[j].log == s.servers[j].log
    ensures VoteResponse(Ballot(epoch, i, j, term, log), VoteReply(term, UpTo(log, s.servers[j].log))) in t.net
  {
    hide Inv, CoreOf, HandleRequestVote, Contiguous;
    var rpc := Ballot(epoch, i, j, term, log);
    LogStands(s, j);
    VoteMeans(s.servers[j], rpc.vote);
    Move(s, ServeVote(rpc), q);
    t := Do(s, ServeVote(rpc));
    var (r, reply) := HandleRequestVote(s.servers[j], rpc.vote);
    Updated(s, j, r, {VoteResponse(rpc, reply)}, t);
    assert VoteResponse(rpc, reply) in t.net;
  }

  /** The votes of rec are counted; if they are enough, the server leads. */
  ghost predicate Counts(f: Server, n: nat, term: nat, rec: set<nat>) {
    f.currentTerm == term
    && if f.role == Leader then true
       else f.role == Candidate && term in f.tallies && f.tallies[term] == Tally(rec, 1 + |rec|) && 1 + |rec| <= n / 2
  }

  lemma Count(s: State, i: nat, j: nat, q: set<nat>, term: nat, log: seq<Entry>, rec: set<nat>) returns (t: State)
    requires Inv(s) && i in q && j in q && j !in rec && i < |s.servers| == |s.epochs| && |log| > 0
    requires VoteResponse(Ballot(s.epochs[i], i, j, term, log), VoteReply(term, true)) in s.net
    requires Counts(s.servers[i], |s.servers|, term, rec)
    ensures Inv(t) && Reaches(s, q, t) && Only(s, t, {i})
    ensures Counts(t.servers[i], |s.servers|, term, rec + {j}) && t.servers[i].log == s.servers[i].log
  {
    hide Inv, CoreOf, HandleVoteReply, Contiguous;
    var rpc := Ballot(s.epochs[i], i, j, term, log);
    LogStands(s, i);
    VoteCountMeans(s.servers[i], |s.servers|, j, rpc.vote, VoteReply(term, true));
    var step := TakeVote(rpc, VoteReply(term, true));
    Move(s, step, q);
    t := Do(s, step);
    var r := HandleVoteReply(s.servers[i], |s.servers|, j, rpc.vote, VoteReply(term, true));
    Updated(s, i, r, {}, t);
  }

  /** The servers of `rest` have yet to vote; each is asked, in a term new to it, by one it may vote for. */
  ghost predicate Willing(s: State, i: nat, term: nat, rest: set<nat>) {
    i < |s.servers| == |s.epochs| && i !in rest && |s.servers[i].log| > 0
    && forall j :: j in rest ==>
         j < |s.servers| && s.servers[j].currentTerm < term && |s.servers[j].log| > 0
         && UpTo(s.servers[i].log, s.servers[j].log)
         && Request(Ballot(s.epochs[i], i, j, term, s.servers[i].log)) in s.net
  }

  ghost predicate Followers(s: State, term: nat, d: set<nat>) {
    forall j :: j in d ==> j < |s.servers| && FollowsIn(s.servers[j], term)
  }

  lemma OneVote(s: State, i: nat, j: nat, q: set<nat>, term: nat, rec: set<nat>, rest: set<nat>) returns (t: State)
    requires Inv(s) && i in q && j in q && Willing(s, i, term, rest) && j in rest && j !in rec
    requires Counts(s.servers[i], |s.servers|, term, rec)
    ensures Inv(t) && Reaches(s, q, t) && Only(s, t, {i, j}) && Willing(t, i, term, rest - {j})
    ensures FollowsIn(t.servers[j], term)
    ensures Counts(t.servers[i], |t.servers|, term, rec + {j}) && t.servers[i].log == s.servers[i].log
  {
    hide Inv, Reaches, Counts, FollowsIn, UpTo;
    var log := s.servers[i].log;
    var m := Vote(s, i, j, q, s.epochs[i], term, log);
    t := Count(m, i, j, q, term, log, rec);
    Join(s, q, m, t);
  }

  /** The votes of rec are counted, and they follow; those of rest are still to come. */
  ghost predicate Gathering(s: State, i: nat, term: nat, rec: set<nat>, rest: set<nat>) {
    Willing(s, i, term, rest) && Followers(s, term, rec) && i !in rec && rest !! rec
    && Counts(s.servers[i], |s.servers|, term, rec)
  }

  lemma GatherOne(s: State, i: nat, j: nat, q: set<nat>, term: nat, rec: set<nat>, rest: set<nat>) returns (t: State)
    requires Inv(s) && i in q && j in rest && rest <= q && Gathering(s, i, term, rec, rest)
    ensures Inv(t) && Reaches(s, q, t) && Only(s, t, {i, j}) && Gathering(t, i, term, rec + {j}, rest - {j})
  {
    hide Inv, Reaches, Counts, Willing, Followers, Only, FollowsIn;
    WillingOther(s, i, term, rest);
    t := OneVote(s, i, j, q, term, rec, rest);
    MoreFollowers(s, t, term, rec, i, j);
  }

  lemma {:induction false} Gather(s: State, i: nat, q: set<nat>, term: nat, rec: set<nat>, rest: set<nat>) returns (t: State)
    requires Inv(s) && i in q && rest <= q && Gathering(s, i, term, rec, rest)
    ensures Inv(t) && Reaches(s, q, t) && Only(s, t, rest + {i}) && Gathering(t, i, term, rec + rest, {})
    decreases |rest|
  {
    hide Inv, Reaches, Only, Gathering;
    if rest == {} {
      Stay(s, q);
      OnlySelf(s, {i});
      t := s;
      assert rec + rest == rec && rest + {i} == {i};
    } else {
      var j :| j in rest;
      var m := GatherOne(s, i, j, q, term, rec, rest);
      t := Gather(m, i, q, term, rec + {j}, rest - {j});
      Join(s, q, m, t);
      OnlyJoin(s, m, t, {i, j}, rest - {j} + {i}, rest + {i});
      assert rec + {j} + (rest - {j}) == rec + rest;
    }
  }

  lemma MoreFollowers(s: State, t: State, term: nat, rec: set<nat>, i: nat, j: nat)
    requires Followers(s, term, rec) && Only(s, t, {i, j}) && i !in rec && j !in rec && j < |s.servers| && FollowsIn(t.servers[j], term)
    ensures Followers(t, term, rec + {j})
  {
  }

  lemma WillingOther(s: State, i: nat, term: nat, rest: set<nat>)
    requires Willing(s, i, term, rest)
    ensures i !in rest && forall j :: j in rest ==> j < |s.servers|
  {
  }

  // ----- electing -----

  ghost predicate Cluster(s: State, q: set<nat>) {
    |s.epochs| == |s.servers| && forall j :: j in q ==> j < |s.servers|
  }

  ghost predicate Best(s: State, i: nat, q: set<nat>) {
    i < |s.servers| && |s.servers[i].log| > 0
    && forall j :: j in q && j < |s.servers| ==> |s.servers[j].log| > 0 && UpTo(s.servers[i].log, s.servers[j].log)
  }

  lemma AskedAreWilling(s: State, m: State, i: nat, q: set<nat>, term: nat)
    requires Cluster(s, q) && Best(s, i, q) && Only(s, m, {i}) && Asks(m, i, term) && m.servers[i].log == s.servers[i].log
    requires forall j :: 0 <= j < |s.servers| ==> s.servers[j].currentTerm < term
    ensures Willing(m, i, term, q - {i})
  {
    hide UpTo;
  }

  /** A server that no other of a majority is ahead of can win their votes. */
  lemma Elect(s: State, i: nat, q: set<nat>) returns (t: State, term: nat)
    requires Inv(s) && Cluster(s, q) && Best(s, i, q) && i in q && |s.servers| >= 2 && |q| > |s.servers| / 2
    requires s.servers[i].role != Leader
    ensures Inv(t) && Reaches(s, q, t) && Only(s, t, q) && Followers(t, term, q - {i})
    ensures t.servers[i].role == Leader && t.servers[i].currentTerm == term
  {
    hide Inv, Reaches, UpTo, Willing, Followers, Only, Best;
    var least := TermAbove(s.servers);
    var m;
    m, term := Ask(s, i, q, least);
    AskedAreWilling(s, m, i, q, term);
    OnlySize(s, m, {i});
    NoFollowers(m, term);
    t := Gather(m, i, q, term, {}, q - {i});
    Join(s, q, m, t);
    OnlyJoin(s, m, t, {i}, q - {i} + {i}, q);
    OnlySize(s, t, q);
    assert {} + (q - {i}) == q - {i};
  }

  lemma OnlySize(s: State, t: State, d: set<nat>)
    requires Only(s, t, d)
    ensures |t.servers| == |s.servers| && |t.epochs| == |s.epochs|
  {
  }

  lemma NoFollowers(s: State, term: nat)
    ensures Followers(s, term, {})
  {
  }

  // ----- replicating -----

  /** What a leader sends to a server next. */
  function NextArgs(f: Server, i: nat, j: nat): AppendArgs
    requires j in f.nextIndex && 1 <= f.nextIndex[j] <= |f.log|
  {
    var next := f.nextIndex[j];
    AppendArgs(f.currentTerm, i, next - 1, f.log[next - 1].term, f.log[next..], f.commitIndex)
  }

  lemma Prepares(f: Server, i: nat, j: nat, n: nat)
    requires Contiguous(f.log) && f.log[0] == SENTINEL && f.log[|f.log| - 1].index == |f.log| - 1 && f.role == Leader
    requires InReach(f, n) && j < n
    ensures PrepareAppend(f, i, j) == Send(NextArgs(f, i, j))
  {
    hide PrepareAppend;
    PrepareMeans(f, i, j);
  }

  lemma Send1(s: State, i: nat, j: nat, q: set<nat>) returns (t: State)
    requires Inv(s) && i in q && j in q && i != j && i < |s.servers| == |s.epochs| && j < |s.servers| && s.servers[i].role == Leader
    ensures Inv(t) && Reaches(s, q, t) && Only(s, t, {})
    ensures InReach(s.servers[i], |s.servers|) && Request(AppendRpc(i, s.epochs[i], j, NextArgs(s.servers[i], i, j))) in t.net
  {
    hide Inv, CoreOf, PrepareAppend, Contiguous, NextArgs;
    LogStands(s, i);
    var f := s.servers[i];
    Prepares(f, i, j, |s.servers|);
    var step := SendAppend(i, j);
    Move(s, step, q);
    t := Do(s, step);
    var sent := {Request(AppendRpc(i, s.epochs[i], j, NextArgs(f, i, j)))};
    Updated(s, i, f, sent, t);
    assert Request(AppendRpc(i, s.epochs[i], j, NextArgs(f, i, j))) in sent;
  }

  /** How a server answers: a leader of an earlier term follows, and a follower of this one stays so. */
  ghost predicate Answered(f: Server, g: Server, args: AppendArgs, reply: AppendReply)
    requires Contiguous(f.log)
  {
    (args.term > f.currentTerm ==> g.role == Follower)
    && (FollowsIn(f, args.term) ==>
          FollowsIn(g, args.term) && reply.term == args.term && (reply.success <==> Continues(f.log, args))
          && (!reply.success ==> g.log == f.log && reply == Rejection(args.term, f.log, args.prevLogIndex)))
  }

  lemma AnswersSo(f: Server, args: AppendArgs)
    requires Contiguous(f.log) && (args.term >= f.currentTerm ==> AppendArgsOk(f.log, args))
    ensures var (g, reply) := HandleAppendEntries(f, args, true); Answered(f, g, args, reply)
  {
    hide HandleAppendEntries, AppendArgsOk, FirstNew, Contiguous, Continues;
    var c := FirstNewExists(f.log, args.entries);
    AppendMeans(f, args, true, c);
  }

  lemma Serve1(s: State, rpc: Rpc, q: set<nat>) returns (t: State, reply: AppendReply)
    requires Inv(s) && rpc.AppendRpc? && Request(rpc) in s.net && rpc.src in q && rpc.dst in q && rpc.dst < |s.servers|
    ensures Inv(t) && Reaches(s, q, t) && Only(s, t, {rpc.dst}) && AppendResponse(rpc, reply) in t.net
    ensures Contiguous(s.servers[rpc.dst].log) && Answered(s.servers[rpc.dst], t.servers[rpc.dst], rpc.append, reply)
  {
    hide Inv, CoreOf, HandleAppendEntries, Contiguous, Answered, AppendArgsOk;
    LogStands(s, rpc.dst);
    ServeAppendReady(s, rpc);
    AnswersSo(s.servers[rpc.dst], rpc.append);
    var step := ServeAppend(rpc, true);
    Move(s, step, q);
    t := Do(s, step);
    var (r, answer) := HandleAppendEntries(s.servers[rpc.dst], rpc.append, true);
    reply := answer;
    Updated(s, rpc.dst, r, {AppendResponse(rpc, reply)}, t);
    assert AppendResponse(rpc, reply) in {AppendResponse(rpc, reply)};
  }

  /** Server i leads in this term, and its last entry, at index `last`, is of it. */
  predicate LeadsWith(f: Server, term: nat, last: nat) {
    f.role == Leader && f.currentTerm == term && last > 0 && |f.log| == last + 1 && f.log[last].term == term
  }

  lemma HearYes(s: State, i: nat, j: nat, q: set<nat>, term: nat, last: nat, args: AppendArgs, reply: AppendReply) returns (t: State)
    requires Inv(s) && i in q && j in q && i != j && i < |s.servers| == |s.epochs| && LeadsWith(s.servers[i], term, last)
    requires AppendResponse(AppendRpc(i, s.epochs[i], j, args), reply) in s.net && args.term == reply.term == term && reply.success
    requires args.prevLogIndex + |args.entries| == last
    ensures Inv(t) && Reaches(s, q, t) && Only(s, t, {i})
    ensures var f, g := s.servers[i], t.servers[i];
            g.log == f.log && LeadsWith(g, term, last) && g.matchIndex == f.matchIndex[j := last]
            && (|Holders(g.matchIndex, i, |s.servers|, last)| > |s.servers| / 2 ==> g.commitIndex >= last)
  {
    hide Inv, CoreOf, HandleAppendReply, Contiguous, Holders;
    var rpc, f := AppendRpc(i, s.epochs[i], j, args), s.servers[i];
    LogStands(s, i);
    LastIs(f);
    CommitIff(f, i, |s.servers|, j, args, reply);
    var step := TakeAppend(rpc, reply);
    Move(s, step, q);
    t := Do(s, step);
    Updated(s, i, HandleAppendReply(f, |s.servers|, j, args, reply), {}, t);
  }

  lemma LastIs(f: Server)
    requires Contiguous(f.log) && f.log[0] == SENTINEL
    ensures InLog(f.log, |f.log| - 1) && RaftLaws.At(f.log, |f.log| - 1) == f.log[|f.log| - 1]
  {
  }

  lemma HearNo(s: State, i: nat, j: nat, q: set<nat>, args: AppendArgs, reply: AppendReply) returns (t: State)
    requires Inv(s) && i in q && j in q && i < |s.servers| == |s.epochs| && s.servers[i].role == Leader
    requires AppendResponse(AppendRpc(i, s.epochs[i], j, args), reply) in s.net
    requires args.term == reply.term == s.servers[i].currentTerm && !reply.success
    ensures Inv(t) && Reaches(s, q, t) && Only(s, t, {i}) && Contiguous(s.servers[i].log)
    ensures var f := s.servers[i]; t.servers[i] == f.(nextIndex := f.nextIndex[j := Backup(f.log, reply)])
  {
    hide Inv, CoreOf, HandleAppendReply, Contiguous, Backup;
    var rpc, f := AppendRpc(i, s.epochs[i], j, args), s.servers[i];
    LogStands(s, i);
    OtherRepliesMean(f, |s.servers|, j, args, reply);
    var step := TakeAppend(rpc, reply);
    Move(s, step, q);
    t := Do(s, step);
    Updated(s, i, HandleAppendReply(f, |s.servers|, j, args, reply), {}, t);
  }

  /** A rejection moves the leader's next try back, and never before the first entry. */
  lemma BacksUp(s: State, i: nat, j: nat, term: nat)
    requires Inv(s) && i < |s.servers| && j < |s.servers| && InReach(s.servers[i], |s.servers|)
    requires Contiguous(s.servers[i].log) && Contiguous(s.servers[j].log) && !Continues(s.servers[j].log, NextArgs(s.servers[i], i, j))
    ensures var next := s.servers[i].nextIndex[j];
            1 <= Backup(s.servers[i].log, Rejection(term, s.servers[j].log, next - 1)) < next
  {
    hide Inv, CoreOf, Backup, Rejection, Contiguous;
    LogStands(s, i);
    LogStands(s, j);
    LogInOrder(s, i);
    LogInOrder(s, j);
    var prev: nat := s.servers[i].nextIndex[j] - 1;
    RaftBackup.BackupExact(s.servers[i].log, s.servers[j].log, s.h.termLog, prev, 0, term);
  }

  /** One round with a follower. */
  lemma Round(s: State, i: nat, j: nat, q: set<nat>, term: nat) returns (t: State, reply: AppendReply)
    requires Inv(s) && Cluster(s, q) && i in q && j in q && i != j
    requires s.servers[i].role == Leader && s.servers[i].currentTerm == term && FollowsIn(s.servers[j], term)
    ensures Inv(t) && Reaches(s, q, t) && Only(s, t, {j}) && FollowsIn(t.servers[j], term) && InReach(s.servers[i], |s.servers|)
    ensures AppendResponse(AppendRpc(i, s.epochs[i], j, NextArgs(s.servers[i], i, j)), reply) in t.net && reply.term == term
    ensures Contiguous(s.servers[j].log) && (reply.success <==> Continues(s.servers[j].log, NextArgs(s.servers[i], i, j)))
    ensures !reply.success ==>
              t.servers[j].log == s.servers[j].log && reply == Rejection(term, s.servers[j].log, s.servers[i].nextIndex[j] - 1)
  {
    hide Inv, CoreOf, Contiguous, Reaches, Continues, Rejection;
    var m := Send1(s, i, j, q);
    t, reply := Serve1(m, AppendRpc(i, s.epochs[i], j, NextArgs(s.servers[i], i, j)), q);
    Join(s, q, m, t);
  }

  /** Whatever its log, a follower can be brought to hold the leader's: each rejection brings the leader
      nearer to where the logs part. */
  lemma {:induction false} Replicate(s: State, i: nat, j: nat, q: set<nat>, term: nat, last: nat) returns (t: State)
    requires Inv(s) && Cluster(s, q) && i in q && j in q && i != j
    requires LeadsWith(s.servers[i], term, last) && FollowsIn(s.servers[j], term) && j in s.servers[i].nextIndex
    ensures Inv(t) && Reaches(s, q, t) && Only(s, t, {i, j}) && FollowsIn(t.servers[j], term)
    ensures var f, g := s.servers[i], t.servers[i];
            g.log == f.log && LeadsWith(g, term, last) && g.matchIndex == f.matchIndex[j := last]
            && (|Holders(g.matchIndex, i, |s.servers|, last)| > |s.servers| / 2 ==> g.commitIndex >= last)
    decreases s.servers[i].nextIndex[j]
  {
    hide Inv, CoreOf, Contiguous, Reaches, Continues, Rejection, Backup, Holders;
    var m, reply := Round(s, i, j, q, term);
    var args := NextArgs(s.servers[i], i, j);
    var u: State;
    if reply.success {
      t := HearYes(m, i, j, q, term, last, args, reply);
    } else {
      u := HearNo(m, i, j, q, args, reply);
      BacksUp(s, i, j, term) by { LogStands(s, i); }
      t := Replicate(u, i, j, q, term, last);
      Join(m, q, u, t);
    }
    Join(s, q, m, t);
  }

  ghost predicate AllHold(f: Server, d: set<nat>, last: nat) {
    forall j :: j in d ==> j in f.matchIndex && f.matchIndex[j] >= last
  }

  lemma ManyHold(f: Server, i: nat, n: nat, d: set<nat>, last: nat)
    requires AllHold(f, d, last) && i !in d && i < n && forall j :: j in d ==> j < n
    ensures |Holders(f.matchIndex, i, n, last)| >= |d| + 1
  {
    assert d + {i} <= Holders(f.matchIndex, i, n, last);
    Sets.SubsetSize(d + {i}, Holders(f.matchIndex, i, n, last));
  }

  /** i leads and knows that those of `done` hold its log; those of `rest` follow it. */
  ghost predicate Spreading(s: State, i: nat, term: nat, last: nat, done: set<nat>, rest: set<nat>) {
    i < |s.servers| && LeadsWith(s.servers[i], term, last) && Followers(s, term, rest) && AllHold(s.servers[i], done, last)
  }

  lemma ReplicateOne(s: State, i: nat, j: nat, q: set<nat>, term: nat, last: nat, done: set<nat>, rest: set<nat>)
    returns (t: State)
    requires Inv(s) && Cluster(s, q) && i in q && rest <= q - {i} && j in rest && Spreading(s, i, term, last, done, rest)
    ensures Inv(t) && Reaches(s, q, t) && Only(s, t, {i, j}) && Cluster(t, q) && t.servers[i].log == s.servers[i].log
    ensures Spreading(t, i, term, last, done + {j}, rest - {j})
    ensures |Holders(t.servers[i].matchIndex, i, |s.servers|, last)| > |s.servers| / 2 ==> t.servers[i].commitIndex >= last
  {
    hide Inv, CoreOf, Reaches, Holders;
    LogStands(s, i);
    t := Replicate(s, i, j, q, term, last);
  }

  lemma MajorityHolds(s: State, i: nat, q: set<nat>, term: nat, last: nat)
    requires Cluster(s, q) && i in q && Spreading(s, i, term, last, q - {i}, {}) && |q| > |s.servers| / 2
    ensures |Holders(s.servers[i].matchIndex, i, |s.servers|, last)| > |s.servers| / 2
  {
    hide Holders;
    assert |q - {i}| == |q| - 1;
    ManyHold(s.servers[i], i, |s.servers|, q - {i}, last);
  }

  lemma {:induction false} ReplicateAll(s: State, i: nat, q: set<nat>, term: nat, last: nat, done: set<nat>, rest: set<nat>)
    returns (t: State)
    requires Inv(s) && Cluster(s, q) && i in q && done + rest == q - {i} && rest != {}
    requires Spreading(s, i, term, last, done, rest) && |q| > |s.servers| / 2
    ensures Inv(t) && Reaches(s, q, t) && Only(s, t, q) && t.servers[i].log == s.servers[i].log && t.servers[i].commitIndex >= last
    ensures t.servers[i].role == Leader
    decreases |rest|
  {
    hide Inv, CoreOf, Reaches, Holders, Spreading, Only;
    var j :| j in rest;
    var m := ReplicateOne(s, i, j, q, term, last, done, rest);
    OnlyMore(s, m, {i, j}, q);
    OnlySize(s, m, q);
    if rest == {j} {
      assert q - {i} == done + {j} && rest - {j} == {};
      MajorityHolds(m, i, q, term, last);
      StillLeads(m, i, term, last, done + {j}, {});
      t := m;
    } else {
      assert done + {j} + (rest - {j}) == done + rest;
      t := ReplicateAll(m, i, q, term, last, done + {j}, rest - {j});
      Join(s, q, m, t);
      OnlyJoin(s, m, t, q, q, q);
    }
  }

  lemma StillLeads(s: State, i: nat, term: nat, last: nat, done: set<nat>, rest: set<nat>)
    requires Spreading(s, i, term, last, done, rest)
    ensures i < |s.servers| && s.servers[i].role == Leader
  {
  }

  // ----- no leader is left -----

  ghost predicate NoLeader(s: State, d: set<nat>) {
    forall j :: j in d ==> j < |s.servers| && s.servers[j].role != Leader
  }

  lemma LeadersDiffer(s: State, i: nat, j: nat)
    requires Inv(s) && i < |s.servers| && j < |s.servers| && i != j && s.servers[i].role == s.servers[j].role == Leader
    ensures s.servers[i].currentTerm != s.servers[j].currentTerm
  {
    Member(s, i);
    Member(s, j);
  }

  /** Of two leaders the one of the earlier term follows when it hears from the other. */
  lemma Unseat(s: State, i: nat, j: nat, q: set<nat>) returns (t: State)
    requires Inv(s) && Cluster(s, q) && i in q && j in q && i != j && s.servers[i].role == s.servers[j].role == Leader
    requires s.servers[i].currentTerm > s.servers[j].currentTerm
    ensures Inv(t) && Reaches(s, q, t) && Only(s, t, {j}) && t.servers[j].role == Follower
  {
    hide Inv, CoreOf, Contiguous, Reaches, Continues;
    var m := Send1(s, i, j, q);
    var reply;
    t, reply := Serve1(m, AppendRpc(i, s.epochs[i], j, NextArgs(s.servers[i], i, j)), q);
    Join(s, q, m, t);
  }

  /** Among two servers at least one can be made not to lead. */
  lemma SomeoneWaits(s: State, q: set<nat>) returns (t: State, c: nat)
    requires Inv(s) && Cluster(s, q) && |q| >= 2
    ensures Inv(t) && Reaches(s, q, t) && Only(s, t, q) && c in q && t.servers[c].role != Leader
  {
    hide Inv, CoreOf, Reaches;
    var i :| i in q;
    assert |q - {i}| == |q| - 1;
    var j: nat :| j in q - {i};
    if s.servers[i].role != Leader || s.servers[j].role != Leader {
      Stay(s, q);
      OnlySelf(s, q);
      t, c := s, if s.servers[i].role != Leader then i else j;
    } else {
      LeadersDiffer(s, i, j);
      if s.servers[i].currentTerm > s.servers[j].currentTerm {
        c := j;
        t := Unseat(s, i, j, q);
      } else {
        c := i;
        t := Unseat(s, j, i, q);
      }
      OnlyMore(s, t, {c}, q);
    }
  }

  lemma OnlyMore(s: State, t: State, d: set<nat>, e: set<nat>)
    requires Only(s, t, d) && d <= e
    ensures Only(s, t, e)
  {
  }

  /** Everybody of `rest` hears of the campaign, and follows whether it votes or not. */
  ghost predicate Polled(s: State, i: nat, epoch: nat, term: nat, log: seq<Entry>, rest: set<nat>)
    requires |log| > 0
  {
    forall j :: j in rest ==>
      j < |s.servers| && s.servers[j].currentTerm < term && |s.servers[j].log| > 0 && Request(Ballot(epoch, i, j, term, log)) in s.net
  }

  lemma {:induction false} Poll(s: State, i: nat, q: set<nat>, epoch: nat, term: nat, log: seq<Entry>, rest: set<nat>)
    returns (t: State)
    requires Inv(s) && i in q && rest <= q && |log| > 0 && Polled(s, i, epoch, term, log, rest)
    ensures Inv(t) && Reaches(s, q, t) && Only(s, t, rest) && NoLeader(t, rest)
    decreases |rest|
  {
    hide Inv, Reaches, Polled, NoLeader, Only;
    if rest == {} {
      Stay(s, q);
      OnlySelf(s, {});
      NobodyLeads(s);
      t := s;
    } else {
      var j :| j in rest;
      var m := PollOne(s, i, j, q, epoch, term, log, rest);
      t := Poll(m, i, q, epoch, term, log, rest - {j});
      Join(s, q, m, t);
      OnlyJoin(s, m, t, {j}, rest - {j}, rest);
      OneMoreDoesNotLead(m, t, j, rest);
    }
  }

  lemma PollOne(s: State, i: nat, j: nat, q: set<nat>, epoch: nat, term: nat, log: seq<Entry>, rest: set<nat>) returns (t: State)
    requires Inv(s) && i in q && rest <= q && j in rest && |log| > 0 && Polled(s, i, epoch, term, log, rest)
    ensures Inv(t) && Reaches(s, q, t) && Only(s, t, {j}) && j < |t.servers| && t.servers[j].role == Follower
    ensures Polled(t, i, epoch, term, log, rest - {j})
  {
    hide Inv, Reaches, UpTo;
    t := Vote(s, i, j, q, epoch, term, log);
  }

  lemma NobodyLeads(s: State)
    ensures NoLeader(s, {})
  {
  }

  lemma OneMoreDoesNotLead(s: State, t: State, j: nat, rest: set<nat>)
    requires j in rest && j < |s.servers| && s.servers[j].role != Leader && Only(s, t, rest - {j}) && NoLeader(t, rest - {j})
    ensures NoLeader(t, rest)
  {
  }

  lemma AskedArePolled(s: State, m: State, i: nat, q: set<nat>, term: nat)
    requires Inv(s) && Cluster(s, q) && Only(s, m, {i}) && Asks(m, i, term)
    requires forall j :: 0 <= j < |s.servers| ==> s.servers[j].currentTerm < term
    ensures Polled(m, i, m.epochs[i], term, m.servers[i].log, q - {i})
  {
    hide Inv, CoreOf, Contiguous;
    forall j | j in q - {i} ensures |m.servers[j].log| > 0 { LogStands(s, j); LastIs(s.servers[j]); }
  }

  lemma Disarm(s: State, q: set<nat>) returns (t: State)
    requires Inv(s) && Cluster(s, q) && |q| >= 2
    ensures Inv(t) && Reaches(s, q, t) && Only(s, t, q) && NoLeader(t, q)
  {
    hide Inv, CoreOf, Reaches, Polled;
    var a, c := SomeoneWaits(s, q);
    var least := TermAbove(a.servers);
    var b, term := Ask(a, c, q, least);
    AskedArePolled(a, b, c, q, term);
    t := Poll(b, c, q, b.epochs[c], term, b.servers[c].log, q - {c});
    Join(s, q, a, b);
    Join(s, q, b, t);
  }

  // ----- the theorem -----

  /** Server i leads, and the last entry of its log is this command, committed and handed over. */
  ghost predicate Commits(s: State, i: nat, command: Command) {
    i < |s.servers|
    && var f := s.servers[i];
       f.role == Leader && f.commitIndex > 0 && |f.log| == f.commitIndex + 1 && f.log[f.commitIndex].command == command
       && |f.applyCh| > 0 && f.applyCh[|f.applyCh| - 1] == ApplyMsg(f.commitIndex, command)
  }

  lemma {:induction false} SomeBest(s: State, q: set<nat>) returns (i: nat)
    requires WellFormed(s) && Cluster(s, q) && q != {}
    ensures i in q && Best(s, i, q)
    decreases |q|
  {
    hide Contiguous;
    var j :| j in q;
    Nonempty(s, j);
    if q == {j} {
      i := j;
    } else {
      i := SomeBest(s, q - {j});
      if !UpTo(s.servers[i].log, s.servers[j].log) {
        forall k | k in q ensures |s.servers[k].log| > 0 && UpTo(s.servers[j].log, s.servers[k].log) {
          Nonempty(s, k);
        }
        i := j;
      }
    }
  }

  lemma Nonempty(s: State, j: nat)
    requires WellFormed(s) && j < |s.servers|
    ensures |s.servers[j].log| > 0
  {
  }

  lemma SubmitTo(s: State, i: nat, q: set<nat>, term: nat, command: Command) returns (t: State, last: nat)
    requires Inv(s) && i in q && i < |s.servers| && s.servers[i].role == Leader && s.servers[i].currentTerm == term
    ensures Inv(t) && Reaches(s, q, t) && Only(s, t, {i}) && LeadsWith(t.servers[i], term, last)
    ensures t.servers[i].log[last].command == command
  {
    hide Inv, CoreOf, StartCommand, Contiguous;
    LogStands(s, i);
    StartMeans(s.servers[i], command);
    var step := Submit(i, command);
    Move(s, step, q);
    t := Do(s, step);
    Updated(s, i, StartCommand(s.servers[i], command).0, {}, t);
    last := |s.servers[i].log|;
  }

  lemma HandedOver(s: State, i: nat, last: nat)
    requires Inv(s) && i < |s.servers| && |s.servers[i].log| == last + 1 && last > 0 && s.servers[i].commitIndex >= last
    requires s.servers[i].role == Leader
    ensures Commits(s, i, s.servers[i].log[last].command)
  {
    hide Inv, CoreOf;
    CommitIndexInLog(s, i);
  }

  lemma MajorityCommits(s: State, q: set<nat>, command: Command) returns (t: State, i: nat)
    requires Inv(s) && Cluster(s, q) && |s.servers| >= 2 && |q| > |s.servers| / 2
    ensures Reaches(s, q, t) && i in q && Commits(t, i, command)
  {
    hide Inv, CoreOf, Reaches, Best, Commits;
    var a := Disarm(s, q);
    InvWellFormed(a);
    i := SomeBest(a, q);
    var b, term := Elect(a, i, q);
    Join(s, q, a, b);
    var c, last := SubmitTo(b, i, q, term, command);
    Join(s, q, b, c);
    assert |q - {i}| == |q| - 1;
    t := ReplicateAll(c, i, q, term, last, {}, q - {i});
    Join(s, q, c, t);
    HandedOver(t, i, last);
  }

  lemma GoesOn(n: nat, states: seq<State>, steps: seq<Step>, b: seq<State>, y: seq<Step>, q: set<nat>)
    requires Run(n, states, steps) && Path(b, y, q) && states[|states| - 1] == b[0]
    ensures Run(n, states + b[1..], steps + y) && (states + b[1..])[|states + b[1..]| - 1] == b[|b| - 1]
  {
    hide Next;
    var c, z := states + b[1..], steps + y;
    forall k | 0 <= k < |z| ensures Next(c[k], z[k], c[k + 1]) {
      if k < |steps| {
        assert c[k] == states[k] && c[k + 1] == states[k + 1];
      } else {
        assert c[k] == b[k - |steps|] && c[k + 1] == b[k - |steps| + 1] && z[k] == y[k - |steps|];
      }
    }
  }

  /** From any state of any run of two servers or more, and for any majority of them: there is a way on, by
      steps of that majority and messages between its members alone, to where one of them leads and has
      committed and handed over the command. */
  lemma MajorityMakesProgress(n: nat, states: seq<State>, steps: seq<Step>, q: set<nat>, command: Command)
    returns (more: seq<State>, further: seq<Step>, i: nat)
    requires Run(n, states, steps) && n >= 2 && (forall j :: j in q ==> j < n) && |q| > n / 2
    ensures Run(n, states + more, steps + further) && forall k :: 0 <= k < |further| ==> Among(further[k], q)
    ensures i in q && Commits((states + more)[|states + more| - 1], i, command)
  {
    hide Inv, CoreOf, Commits, Next;
    var s := states[|states| - 1];
    RunInv(n, states, steps, |states| - 1);
    InvWellFormed(s);
    var t;
    t, i := MajorityCommits(s, q, command);
    var onward: seq<State>, ahead: seq<Step> :| Leads(onward, ahead, s, q, t);
    GoesOn(n, states, steps, onward, ahead, q);
    more, further := onward[1..], ahead;
  }

  /** A cluster of one, though, never has a leader: it wins by votes that others send, and there are none. */
  lemma {:induction false} AloneNeverLeads(states: seq<State>, steps: seq<Step>, k: nat)
    requires Run(1, states, steps) && k < |states|
    ensures |states[k].servers| == 1 && states[k].servers[0].role != Leader
  {
    hide Inv, CoreOf, Do, Enabled;
    RunInv(1, states, steps, k);
    if k == 0 {
      AloneAtFirst();
    } else {
      AloneNeverLeads(states, steps, k - 1);
      RunInv(1, states, steps, k - 1);
      assert Next(states[k - 1], steps[k - 1], states[k]);
      AloneStays(states[k - 1], steps[k - 1]);
    }
  }

  lemma AloneAtFirst()
    ensures Init(1).servers[0].role != Leader
  {
  }

  lemma AloneStays(s: State, step: Step)
    requires Inv(s) && WellFormed(s) && Enabled(s, step) && |s.servers| == 1 && s.servers[0].role != Leader
    ensures |Do(s, step).servers| == 1 && Do(s, step).servers[0].role != Leader
  {
    hide Inv, CoreOf, Deliveries, StartElection, Contiguous;
    NoMessages(s);
    match step
    case BeginElection(i) => ElectionMeans(s.servers[i], i);
    case _ =>
  }

  lemma NoMessages(s: State)
    requires Inv(s) && |s.servers| == 1
    ensures s.net == {}
  {
    forall m ensures m !in s.net {
      if m in s.net { RaftMajority.NobodyAsksItself(s, m); }
    }
  }
}
