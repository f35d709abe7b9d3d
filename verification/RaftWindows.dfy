/** The demotion as the implementation performs it, and when that is the atomic one that the runs
    of RaftSystem take: convertState holds one signal and carries no term. */
module RaftWindows {
  import opened Commands
  import opened RaftServer
  import opened RaftSystem

  /** The channel gives the atomic demotion exactly when it has room or there is nobody to demote. */
  lemma DemotionIsAtomic(s: Server, term: nat, room: bool)
    ensures CheckThroughChannel(s, term, room) == CheckCurrentTerm(s, term)
            <==> term <= s.currentTerm || room || s.role == Follower
  {
    if term > s.currentTerm && !room && s.role != Follower {
      assert CheckThroughChannel(s, term, room).role == s.role;
    }
  }

  /** With a full channel a leader enters the new term as its leader, although nobody elected it,
      and appends entries of that term. */
  lemma FullChannelMakesALeader(s: Server, term: nat, command: Command)
    requires Contiguous(s.log) && s.role == Leader && term > s.currentTerm
    ensures var r := CheckThroughChannel(s, term, false);
            r.role == Leader && r.currentTerm == term && r.votedFor == -1
            && var (t, index, at, isLeader) := StartCommand(r, command);
               isLeader && at == term && LastTerm(t.log) == term && t.log == s.log + [Entry(term, index, command)]
  {
    var index := LastIndex(s.log) + 1;
    assert (s.log + [Entry(term, index, command)])[|s.log|] == Entry(term, index, command);
  }

  // ----- two leaders of one term -----

  ghost predicate Leads(s: State, i: nat, term: nat) {
    i < |s.servers| && s.servers[i].role == Leader && s.servers[i].currentTerm == term
  }

  /** A leader of an old term that has yet to hear of the new leader's election. */
  ghost predicate Unaware(s: State, i: nat, rpc: Rpc) {
    i < |s.servers| && s.servers[i].role == Leader
    && rpc.VoteRpc? && rpc.dst == i && rpc.src != i && Request(rpc) in s.net
    && rpc.vote.term > s.servers[i].currentTerm && Leads(s, rpc.src, rpc.vote.term)
  }

  /** If its channel is full when it hears, the term has two leaders. */
  lemma UnawareLeadsToo(s: State, i: nat, rpc: Rpc)
    requires Unaware(s, i, rpc)
    ensures var r := CheckThroughChannel(s.servers[i], rpc.vote.term, false);
            var t := s.(servers := s.servers[i := r]);
            Leads(t, i, rpc.vote.term) && Leads(t, rpc.src, rpc.vote.term) && rpc.src != i
  {
  }

  const FIRST := VoteArgs(1, 0, 0, 0)
  const SECOND := VoteArgs(2, 1, 0, 0)

  function Voted(term: nat, candidate: nat): Server {
    Boot(None).(currentTerm := term, votedFor := candidate, disk := Some(Durable(term, candidate, [SENTINEL])))
  }

  function Running(me: nat, term: nat, tallies: map<nat, Tally>): Server {
    Voted(term, me).(role := Candidate, tallies := tallies)
  }

  function Won(me: nat, term: nat, tallies: map<nat, Tally>): Server {
    Running(me, term, tallies).(role := Leader, nextIndex := SameForAll(3, 1), matchIndex := SameForAll(3, 0))
  }

  const ONE := map[1 := Tally({}, 1)]
  const TWO := map[1 := Tally({}, 1), 2 := Tally({}, 1)]
  const ELECTED_FIRST := Won(0, 1, map[1 := Tally({2}, 2)])
  const ELECTED_SECOND := Won(1, 2, TWO[2 := Tally({2}, 2)])

  /** Where the run below stands, but for messages nobody receives. */
  ghost predicate Stands(s: State, servers: seq<Server>, needed: set<Message>) {
    s.servers == servers && |servers| == 3 && (forall k :: 0 <= k < 3 ==> servers[k].log == [SENTINEL])
    && s.epochs == [0, 0, 0] && needed <= s.net
  }

  lemma Asks(s: State, servers: seq<Server>, needed: set<Message>, me: nat, args: VoteArgs, r: Server) returns (t: State)
    requires Stands(s, servers, needed) && me < 3
    requires |servers| == 3 && servers[me].role != Leader && r.log == [SENTINEL] && Contiguous(servers[me].log)
    requires StartElection(servers[me], me) == (r, args)
    ensures Next(s, BeginElection(me), t) && Stands(t, servers[me := r], VoteRequests(3, me, 0, args))
  {
    hide StartElection, Deliveries, VoteRequests;
    t := Do(s, BeginElection(me));
  }

  lemma Answers(s: State, servers: seq<Server>, needed: set<Message>, rpc: Rpc, r: Server, reply: VoteReply) returns (t: State)
    requires Stands(s, servers, needed) && rpc.VoteRpc? && Request(rpc) in needed && rpc.dst < 3 && |servers| == 3
    requires Contiguous(servers[rpc.dst].log) && HandleRequestVote(servers[rpc.dst], rpc.vote) == (r, reply)
    requires r.log == [SENTINEL]
    ensures Next(s, ServeVote(rpc), t) && Stands(t, servers[rpc.dst := r], needed + {VoteResponse(rpc, reply)})
  {
    hide HandleRequestVote, Deliveries;
    t := Do(s, ServeVote(rpc));
  }

  lemma Counts(s: State, servers: seq<Server>, needed: set<Message>, rpc: Rpc, r: Server, reply: VoteReply) returns (t: State)
    requires Stands(s, servers, needed) && rpc.VoteRpc? && VoteResponse(rpc, reply) in needed && rpc.src < 3 && rpc.epoch == 0
    requires |servers| == 3 && r.log == [SENTINEL] && Contiguous(servers[rpc.src].log)
    requires HandleVoteReply(servers[rpc.src], 3, rpc.dst, rpc.vote, reply) == r
    ensures Next(s, TakeVote(rpc, reply), t) && Stands(t, servers[rpc.src := r], needed)
  {
    hide HandleVoteReply, Deliveries;
    t := Do(s, TakeVote(rpc, reply));
  }

  const ASK_FIRST := VoteRpc(0, 0, 2, FIRST)
  const ASK_SECOND := VoteRpc(1, 0, 2, SECOND)
  const UNREAD := VoteRpc(1, 0, 0, SECOND)

  lemma FirstElection()
    ensures StartElection(Boot(None), 0) == (Running(0, 1, ONE), FIRST)
    ensures HandleRequestVote(Boot(None), FIRST) == (Voted(1, 0), VoteReply(1, true))
    ensures HandleVoteReply(Running(0, 1, ONE), 3, 2, FIRST, VoteReply(1, true)) == ELECTED_FIRST
  {
    assert ONE[1 := Tally({2}, 2)] == map[1 := Tally({2}, 2)];
  }

  lemma SecondCampaign()
    ensures StartElection(Boot(None), 1).0 == Running(1, 1, ONE)
    ensures StartElection(Running(1, 1, ONE), 1) == (Running(1, 2, TWO), SECOND)
  {
    assert ONE[2 := Tally({}, 1)] == TWO;
  }

  lemma SecondVote()
    ensures HandleRequestVote(Voted(1, 0), SECOND) == (Voted(2, 1), VoteReply(2, true))
  {
  }

  lemma SecondCount()
    ensures HandleVoteReply(Running(1, 2, TWO), 3, 2, SECOND, VoteReply(2, true)) == ELECTED_SECOND
  {
    hide SameForAll;
    assert TWO[2].recorded + {2} == {2};
  }

  /** Server 0 is elected in term 1, then server 1 in term 2, both by the vote of server 2. */
  function Elections(): seq<Step> {
    [BeginElection(0), ServeVote(ASK_FIRST), TakeVote(ASK_FIRST, VoteReply(1, true)),
     BeginElection(1), BeginElection(1), ServeVote(ASK_SECOND), TakeVote(ASK_SECOND, VoteReply(2, true))]
  }

  lemma Blank(me: nat, term: nat, tallies: map<nat, Tally>)
    ensures Voted(term, me).log == Running(me, term, tallies).log == Won(me, term, tallies).log == Boot(None).log == [SENTINEL]
    ensures Running(me, term, tallies).role == Candidate && Boot(None).role == Follower && Contiguous([SENTINEL])
  {
  }

  lemma Starts()
    ensures Stands(Init(3), [Boot(None), Boot(None), Boot(None)], {})
  {
    assert Init(3).servers == [Boot(None), Boot(None), Boot(None)] && Init(3).epochs == [0, 0, 0];
  }

  lemma FirstStep()
    ensures Elections()[0] == BeginElection(0)
  {
  }

  lemma FirstAsks(s: State) returns (t: State)
    requires Stands(s, [Boot(None), Boot(None), Boot(None)], {})
    ensures Next(s, Elections()[0], t)
    ensures Stands(t, [Running(0, 1, ONE), Boot(None), Boot(None)], {Request(ASK_FIRST)})
  {
    hide StartElection, Boot, Next, Stands, Running, Voted, Won, Contiguous, VoteRequests, Elections;
    FirstStep();
    FirstElection();
    Blank(0, 1, ONE);
    var b, c := Boot(None), Running(0, 1, ONE);
    t := Asks(s, [b, b, b], {}, 0, FIRST, c);
    assert [b, b, b][0 := c] == [c, b, b];
    Asked(0, FIRST, 2);
    Enough(t, [c, b, b], VoteRequests(3, 0, 0, FIRST), {Request(ASK_FIRST)});
  }

  lemma Asked(me: nat, args: VoteArgs, to: nat)
    requires me < 3 && to < 3 && me != to
    ensures Request(VoteRpc(me, 0, to, args)) in VoteRequests(3, me, 0, args)
  {
  }

  lemma Enough(s: State, servers: seq<Server>, needed: set<Message>, fewer: set<Message>)
    requires Stands(s, servers, needed) && fewer <= needed
    ensures Stands(s, servers, fewer)
  {
  }

  lemma FirstAnswers(s: State) returns (t: State)
    requires Stands(s, [Running(0, 1, ONE), Boot(None), Boot(None)], {Request(ASK_FIRST)})
    ensures Next(s, Elections()[1], t)
    ensures Stands(t, [Running(0, 1, ONE), Boot(None), Voted(1, 0)], {VoteResponse(ASK_FIRST, VoteReply(1, true))})
  {
    hide HandleRequestVote, Boot, Next, Stands, Running, Voted, Won, Contiguous;
    FirstElection();
    Blank(0, 1, ONE);
    var b, c, v, voted := Boot(None), Running(0, 1, ONE), Voted(1, 0), VoteResponse(ASK_FIRST, VoteReply(1, true));
    t := Answers(s, [c, b, b], {Request(ASK_FIRST)}, ASK_FIRST, v, VoteReply(1, true));
    assert [c, b, b][2 := v] == [c, b, v];
    Enough(t, [c, b, v], {Request(ASK_FIRST)} + {voted}, {voted});
  }

  lemma FirstCounts(s: State) returns (t: State)
    requires Stands(s, [Running(0, 1, ONE), Boot(None), Voted(1, 0)], {VoteResponse(ASK_FIRST, VoteReply(1, true))})
    ensures Next(s, Elections()[2], t) && Stands(t, [ELECTED_FIRST, Boot(None), Voted(1, 0)], {})
  {
    hide HandleVoteReply, Boot, Next, Stands, Running, Voted, Won, Contiguous;
    FirstElection();
    Blank(0, 1, ONE);
    Blank(0, 1, map[1 := Tally({2}, 2)]);
    var b, c, v, l, voted := Boot(None), Running(0, 1, ONE), Voted(1, 0), ELECTED_FIRST, VoteResponse(ASK_FIRST, VoteReply(1, true));
    t := Counts(s, [c, b, v], {voted}, ASK_FIRST, l, VoteReply(1, true));
    assert [c, b, v][0 := l] == [l, b, v];
    Enough(t, [l, b, v], {voted}, {});
  }

  lemma SecondRuns(s: State) returns (t: State)
    requires Stands(s, [ELECTED_FIRST, Boot(None), Voted(1, 0)], {})
    ensures Next(s, Elections()[3], t) && Stands(t, [ELECTED_FIRST, Running(1, 1, ONE), Voted(1, 0)], {})
  {
    hide StartElection, Boot, Next, Stands, Running, Voted, Won, Contiguous, VoteRequests;
    SecondCampaign();
    Blank(1, 1, ONE);
    var b, l, v, c := Boot(None), ELECTED_FIRST, Voted(1, 0), Running(1, 1, ONE);
    var early := StartElection(b, 1).1;
    t := Asks(s, [l, b, v], {}, 1, early, c);
    assert [l, b, v][1 := c] == [l, c, v];
    Enough(t, [l, c, v], VoteRequests(3, 1, 0, early), {});
  }

  lemma SecondAsks(s: State) returns (t: State)
    requires Stands(s, [ELECTED_FIRST, Running(1, 1, ONE), Voted(1, 0)], {})
    ensures Next(s, Elections()[4], t)
    ensures Stands(t, [ELECTED_FIRST, Running(1, 2, TWO), Voted(1, 0)], {Request(ASK_SECOND), Request(UNREAD)})
  {
    hide StartElection, Next, Stands, Running, Voted, Won, Contiguous, VoteRequests;
    SecondCampaign();
    Blank(1, 1, ONE);
    Blank(1, 2, TWO);
    var l, v, c, d := ELECTED_FIRST, Voted(1, 0), Running(1, 1, ONE), Running(1, 2, TWO);
    t := Asks(s, [l, c, v], {}, 1, SECOND, d);
    assert [l, c, v][1 := d] == [l, d, v];
    Asked(1, SECOND, 2);
    Asked(1, SECOND, 0);
    Enough(t, [l, d, v], VoteRequests(3, 1, 0, SECOND), {Request(ASK_SECOND), Request(UNREAD)});
  }

  lemma SecondAnswers(s: State) returns (t: State)
    requires Stands(s, [ELECTED_FIRST, Running(1, 2, TWO), Voted(1, 0)], {Request(ASK_SECOND), Request(UNREAD)})
    ensures Next(s, Elections()[5], t)
    ensures Stands(t, [ELECTED_FIRST, Running(1, 2, TWO), Voted(2, 1)],
                   {Request(UNREAD), VoteResponse(ASK_SECOND, VoteReply(2, true))})
  {
    hide HandleRequestVote, Next, Stands, Running, Voted, Won, Contiguous;
    SecondVote();
    Blank(0, 1, ONE);
    Blank(1, 2, TWO);
    var l, v, d, w, voted := ELECTED_FIRST, Voted(1, 0), Running(1, 2, TWO), Voted(2, 1), VoteResponse(ASK_SECOND, VoteReply(2, true));
    var asked := {Request(ASK_SECOND), Request(UNREAD)};
    t := Answers(s, [l, d, v], asked, ASK_SECOND, w, VoteReply(2, true));
    assert [l, d, v][2 := w] == [l, d, w];
    Enough(t, [l, d, w], asked + {voted}, {Request(UNREAD), voted});
  }

  lemma SecondCounts(s: State) returns (t: State)
    requires Stands(s, [ELECTED_FIRST, Running(1, 2, TWO), Voted(2, 1)],
                    {Request(UNREAD), VoteResponse(ASK_SECOND, VoteReply(2, true))})
    ensures Next(s, Elections()[6], t) && Unaware(t, 0, UNREAD)
  {
    hide HandleVoteReply, Next, Stands, Running, Voted, Won, Contiguous, Unaware;
    SecondCount();
    Blank(1, 2, TWO);
    Blank(1, 2, TWO[2 := Tally({2}, 2)]);
    var l, d, w, voted := ELECTED_FIRST, Running(1, 2, TWO), Voted(2, 1), VoteResponse(ASK_SECOND, VoteReply(2, true));
    t := Counts(s, [l, d, w], {Request(UNREAD), voted}, ASK_SECOND, ELECTED_SECOND, VoteReply(2, true));
    assert [l, d, w][1 := ELECTED_SECOND] == [l, ELECTED_SECOND, w];
    StandsUnaware(t, {Request(UNREAD), voted});
  }

  lemma StandsUnaware(s: State, needed: set<Message>)
    requires Stands(s, [ELECTED_FIRST, ELECTED_SECOND, Voted(2, 1)], needed) && Request(UNREAD) in needed
    ensures Unaware(s, 0, UNREAD)
  {
  }

  /** A run in which the leader of term 1 has yet to hear of the election that made another server
      the leader of term 2: if its channel is full when it does, term 2 has two leaders. */
  lemma UnawareIsReached() returns (states: seq<State>)
    ensures Run(3, states, Elections()) && Unaware(states[|states| - 1], 0, UNREAD)
  {
    hide Next, Stands, Unaware;
    Starts();
    var s0 := Init(3);
    var s1 := FirstAsks(s0);
    var s2 := FirstAnswers(s1);
    var s3 := FirstCounts(s2);
    var s4 := SecondRuns(s3);
    var s5 := SecondAsks(s4);
    var s6 := SecondAnswers(s5);
    var s7 := SecondCounts(s6);
    states := [s0, s1, s2, s3, s4, s5, s6, s7];
  }
}
