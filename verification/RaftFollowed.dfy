/** A whole-log run follows every run of the compacting cluster. */
module RaftFollowed {
  import opened Commands
  import opened RaftServer
  import opened RaftCore
  import opened RaftCoreSteps
  import opened RaftCommitted
  import opened RaftServerInv
  import opened RaftReplication
  import opened RaftSystem
  import opened RaftSafety
  import opened RaftTheorems
  import opened RaftCompaction
  import opened RaftCompactionRuns
  import opened RaftCompacted
  import opened RaftCompactedRuns
  import opened RaftCutForm

  // ----- the uncut form -----

  /** The messages a cut log answers that a whole one would not: refusals of an AppendEntries. */
  ghost predicate Refusal(w: State, m: Message) {
    m.AppendResponse? && m.rpc.AppendRpc? && !m.appendReply.success && m.appendReply.conflictTerm != 0
    && m.appendReply.term == m.rpc.append.term && Request(m.rpc) in w.net
  }

  ghost predicate OfOldTerms(f: Server, k: Cutting) {
    k.from < |f.log| && forall j :: 0 <= j <= k.from ==> f.log[j].term <= k.t
  }

  /** The log of f may be cut as k says. */
  ghost predicate MayCut(w: State, i: nat, k: Cutting) {
    i < |w.servers|
    && MayView(w.servers[i], k.from, k.b) && Kept(CoreOf(w), w.servers[i], k.b) && OfOldTerms(w.servers[i], k)
    && Fresh(w, i, k.t)
  }

  ghost predicate Held(w: State, c: State, i: nat, k: Cutting)
    requires i < |c.servers|
  {
    MayCut(w, i, k) && CutForm(w.servers[i], k, c.servers[i])
  }

  ghost predicate NetHeld(w: State, c: State) {
    forall m :: m in c.net ==> m in w.net || Refusal(w, m)
  }

  /** Whole state w is the uncut form of c. */
  ghost predicate Follows(w: State, c: State, g: seq<Cutting>) {
    Sound(w) && |g| == |c.servers| == |w.servers| && c.epochs == w.epochs
    && (forall i :: 0 <= i < |c.servers| ==> Held(w, c, i, g[i])) && NetHeld(w, c) && c.delivered <= w.delivered
  }

  // ----- one server moves -----

  /** What the cut server has handed over, the whole one has too. */
  lemma CutHandsOver(s: State, i: nat, k: Cutting, g: Server)
    requires Sound(s) && i < |s.servers| && CutForm(s.servers[i], k, g)
    ensures Deliveries(i, g.applyCh) <= s.delivered
  {
    hide Inv, EpochsOk, WellFormed;
    var f := s.servers[i];
    CommitIndexInLog(s, i);
    Looks(f, k.from, k.b);
    MessagesExact(f.log, Later(k.from, 1), f.lastApplied + 1);
    HandedAgain(f, Later(k.from, 1), g.applyCh);
    assert Deliveries(i, f.applyCh) <= s.delivered;
  }

  lemma HandedAgain(f: Server, first: nat, sent: seq<ApplyMsg>)
    requires AppliedInOrder(f) && 1 <= first
    requires |sent| == if first < f.lastApplied + 1 then f.lastApplied + 1 - first else 0
    requires forall k :: 0 <= k < |sent| ==> sent[k] == ApplyMsg(first + k, f.log[first + k].command)
    ensures forall m :: m in sent ==> m in f.applyCh
  {
    forall k | 0 <= k < |sent| ensures sent[k] in f.applyCh {
      assert f.applyCh[first + k - 1] == sent[k];
    }
  }

  lemma OtherHeld(w: State, c: State, w': State, c': State, j: nat, k: Cutting)
    requires j < |c.servers| && j < |c'.servers| && j < |w'.servers| && Held(w, c, j, k)
    requires w'.servers[j] == w.servers[j] && c'.servers[j] == c.servers[j] && Advances(w, w') && Fresh(w', j, k.t)
    ensures Held(w', c', j, k)
  {
    hide Fresh, HistGrows, CoreOf, Settled, MayView, CutForm, OfOldTerms;
    var f := w.servers[j];
    SettledGrows(CoreOf(w), CoreOf(w'), f.log[..k.b + 1], f.currentTerm, f.currentTerm);
  }

  ghost predicate OthersStay(w: State, c: State, w': State, c': State, i: nat, g: seq<Cutting>) {
    |w.servers| == |c.servers| == |w'.servers| == |c'.servers| == |g|
    && forall j: nat :: j < |w.servers| && j != i ==>
         w'.servers[j] == w.servers[j] && c'.servers[j] == c.servers[j] && Fresh(w', j, g[j].t)
  }

  lemma Assemble(w: State, c: State, g: seq<Cutting>, w': State, c': State, i: nat, k: Cutting)
    requires Follows(w, c, g) && Sound(w') && Advances(w, w') && OthersStay(w, c, w', c', i, g) && c'.epochs == w'.epochs
    requires i < |g| && Held(w', c', i, k)
    requires forall m :: m in c'.net ==> m in c.net || m in w'.net || Refusal(w', m)
    requires c'.delivered <= c.delivered + Deliveries(i, c'.servers[i].applyCh)
    ensures Follows(w', c', g[i := k])
  {
    hide Held, Sound, Fresh, Deliveries;
    var h := g[i := k];
    forall j | 0 <= j < |c'.servers| ensures Held(w', c', j, h[j]) {
      if j != i { OtherHeld(w, c, w', c', j, g[j]); }
    }
    HeldForm(w', c', i, k);
    CutHandsOver(w', i, k, c'.servers[i]);
    NetFollows(w, c, w', c');
  }

  lemma HeldForm(w: State, c: State, i: nat, k: Cutting)
    requires i < |c.servers| && Held(w, c, i, k)
    ensures i < |w.servers| && CutForm(w.servers[i], k, c.servers[i])
  {
  }

  lemma NetFollows(w: State, c: State, w': State, c': State)
    requires NetHeld(w, c) && Advances(w, w')
    requires forall m :: m in c'.net ==> m in c.net || m in w'.net || Refusal(w', m)
    ensures NetHeld(w', c') && w.delivered <= w'.delivered
  {
  }

  // ----- a step of both -----

  lemma OnlyActor(s: State, step: Step)
    requires WellFormed(s) && Enabled(s, step)
    ensures |Do(s, step).servers| == |s.servers| && Actor(step) < |s.servers|
    ensures forall j: nat :: j < |s.servers| && j != Actor(step) ==> Do(s, step).servers[j] == s.servers[j]
    ensures !step.Restart? ==> Do(s, step).epochs == s.epochs
  {
    hide Deliveries, HandleRequestVote, HandleVoteReply, HandleAppendEntries, HandleAppendReply, StartElection, StartCommand,
         PrepareAppend, Boot, AppendArgsOk, Contiguous;
  }

  lemma StaysCut(w: State, step: Step, i: nat, k: Cutting)
    requires Sound(w) && Enabled(w, step) && step != Restart(i) && MayCut(w, i, k)
    requires i < |Do(w, step).servers| && MayView(Do(w, step).servers[i], k.from, k.b)
    ensures MayCut(Do(w, step), i, k)
  {
    hide Inv, EpochsOk, HandedOn, WellFormed, Enabled, Do, CoreOf, Kept, Fresh, Cut, HandleAppendEntries;
    var f, r := w.servers[i], Do(w, step).servers[i];
    StepKept(w, step, i, k.b);
    FreshStep(w, step, i, k.t);
    forall j | 0 <= j <= k.from ensures r.log[j].term <= k.t {
      assert r.log[j] == r.log[..k.b + 1][j] == f.log[..k.b + 1][j] == f.log[j];
    }
  }

  /** Both take the step, and the actor's new state is again the cut form. */
  lemma RealFollows(w: State, c: State, g: seq<Cutting>, step: Step, x: Server, sent: set<Message>, h: History)
    requires Follows(w, c, g) && Enabled(w, step) && !step.Restart? && Actor(step) < |c.servers|
    requires |Do(w, step).servers| == |w.servers| && CutForm(Do(w, step).servers[Actor(step)], g[Actor(step)], x)
    requires sent <= Do(w, step).net
    ensures Follows(Do(w, step), Update(c, Actor(step), x, sent, h), g)
  {
    hide Sound, Enabled, Do, CutForm, Fresh, Deliveries, Advances, MayCut, OthersStay, NetHeld, Refusal;
    SoundParts(w);
    var i, w', c' := Actor(step), Do(w, step), Update(c, Actor(step), x, sent, h);
    RealKeeps(w, step);
    OnlyActor(w, step);
    OthersFollow(w, c, g, step, c');
    FormMay(w'.servers[i], g[i], x);
    assert Held(w, c, i, g[i]);
    StaysCut(w, step, i, g[i]);
    Assemble(w, c, g, w', c', i, g[i]);
    assert g[i := g[i]] == g;
  }

  lemma OthersFollow(w: State, c: State, g: seq<Cutting>, step: Step, c': State)
    requires Follows(w, c, g) && Enabled(w, step) && Actor(step) < |c.servers| && |c'.servers| == |c.servers|
    requires forall j: nat :: j < |c.servers| && j != Actor(step) ==> c'.servers[j] == c.servers[j]
    ensures OthersStay(w, c, Do(w, step), c', Actor(step), g)
  {
    hide Sound, Enabled, Do, Fresh, Held, NetHeld;
    SoundParts(w);
    OnlyActor(w, step);
    forall j: nat | j < |g| && j != Actor(step) ensures Fresh(Do(w, step), j, g[j].t) {
      HeldFresh(w, c, j, g[j]);
      FreshStep(w, step, j, g[j].t);
    }
  }

  lemma SoundParts(s: State)
    requires Sound(s)
    ensures WellFormed(s) && Inv(s) && EpochsOk(s)
  {
  }

  lemma FormMay(f: Server, k: Cutting, x: Server)
    requires CutForm(f, k, x)
    ensures MayView(f, k.from, k.b)
  {
  }

  lemma HeldFresh(w: State, c: State, j: nat, k: Cutting)
    requires j < |c.servers| && Held(w, c, j, k)
    ensures j < |w.servers| && Fresh(w, j, k.t)
  {
  }

  // ----- the steps the whole cluster takes as they are -----

  /** The whole server behind the acting one. */
  lemma Behind(w: State, c: State, g: seq<Cutting>, i: nat)
    requires Follows(w, c, g) && i < |c.servers|
    ensures i < |w.servers| == |c.servers| == |g| && Sound(w) && Inv(w) && WellFormed(w) && c.epochs == w.epochs
    ensures MayCut(w, i, g[i]) && CutForm(w.servers[i], g[i], c.servers[i])
    ensures Contiguous(w.servers[i].log) && Contiguous(c.servers[i].log)
    ensures c.servers[i].role == w.servers[i].role && c.servers[i].currentTerm == w.servers[i].currentTerm
  {
    hide Inv, EpochsOk, HandedOn, MayCut, NetHeld;
    assert Held(w, c, i, g[i]);
    HeldForm(w, c, i, g[i]);
    FormParts(w.servers[i], g[i], c.servers[i]);
  }

  lemma Arrived(w: State, c: State, g: seq<Cutting>, m: Message)
    requires Follows(w, c, g) && m in c.net
    ensures m in w.net || Refusal(w, m)
  {
    hide Sound, Held, Refusal;
  }

  lemma RoleFollows(w: State, c: State, g: seq<Cutting>, step: Step)
    requires Follows(w, c, g) && WellFormed(c) && Enabled(c, step) && (step.EnterCandidate? || step.StepDown?)
    ensures WellFormed(w) && Enabled(w, step) && Follows(Do(w, step), Do(c, step), g)
  {
    hide Follows, Deliveries, Contiguous, CutForm, MayCut, Sound, Inv;
    var i := step.i;
    Behind(w, c, g, i);
    RoleForm(w.servers[i], g[i], c.servers[i], if step.EnterCandidate? then Candidate else Follower);
    RealFollows(w, c, g, step, Do(c, step).servers[i], {}, c.h);
  }

  lemma ElectionFollows(w: State, c: State, g: seq<Cutting>, i: nat)
    requires Follows(w, c, g) && WellFormed(c) && Enabled(c, BeginElection(i))
    ensures WellFormed(w) && Enabled(w, BeginElection(i)) && Follows(Do(w, BeginElection(i)), Do(c, BeginElection(i)), g)
  {
    hide Follows, Deliveries, Contiguous, CutForm, MayCut, Sound, Inv, StartElection, VoteRequests, RecordCampaign;
    Behind(w, c, g, i);
    var x := c.servers[i];
    ElectionForm(w.servers[i], g[i], x, i);
    var (y, args) := StartElection(x, i);
    RealFollows(w, c, g, BeginElection(i), y, VoteRequests(|c.servers|, i, c.epochs[i], args), RecordCampaign(c.h, i, args.term, y.log));
  }

  lemma VoteFollows(w: State, c: State, g: seq<Cutting>, rpc: Rpc)
    requires Follows(w, c, g) && WellFormed(c) && Enabled(c, ServeVote(rpc))
    ensures WellFormed(w) && Enabled(w, ServeVote(rpc)) && Follows(Do(w, ServeVote(rpc)), Do(c, ServeVote(rpc)), g)
  {
    hide Follows, Deliveries, Contiguous, CutForm, MayCut, Sound, Inv, HandleRequestVote, RecordBallot;
    var v := rpc.dst;
    Behind(w, c, g, v);
    Arrived(w, c, g, Request(rpc));
    VoteForm(w.servers[v], g[v], c.servers[v], rpc.vote);
    var (y, reply) := HandleRequestVote(c.servers[v], rpc.vote);
    RealFollows(w, c, g, ServeVote(rpc), y, {VoteResponse(rpc, reply)}, Do(c, ServeVote(rpc)).h);
  }

  lemma TallyFollows(w: State, c: State, g: seq<Cutting>, rpc: Rpc, reply: VoteReply)
    requires Follows(w, c, g) && WellFormed(c) && Enabled(c, TakeVote(rpc, reply))
    ensures WellFormed(w) && Enabled(w, TakeVote(rpc, reply))
    ensures Follows(Do(w, TakeVote(rpc, reply)), Do(c, TakeVote(rpc, reply)), g)
  {
    hide Follows, Deliveries, Contiguous, CutForm, MayCut, Sound, Inv, HandleVoteReply, RecordElection;
    var i := rpc.src;
    Behind(w, c, g, i);
    Arrived(w, c, g, VoteResponse(rpc, reply));
    TallyForm(w.servers[i], g[i], c.servers[i], |c.servers|, rpc.dst, rpc.vote, reply);
    var y := HandleVoteReply(c.servers[i], |c.servers|, rpc.dst, rpc.vote, reply);
    RealFollows(w, c, g, TakeVote(rpc, reply), y, {}, Do(c, TakeVote(rpc, reply)).h);
  }

  lemma SubmitFollows(w: State, c: State, g: seq<Cutting>, i: nat, command: Command)
    requires Follows(w, c, g) && WellFormed(c) && Enabled(c, Submit(i, command))
    ensures WellFormed(w) && Enabled(w, Submit(i, command)) && Follows(Do(w, Submit(i, command)), Do(c, Submit(i, command)), g)
  {
    hide Follows, Deliveries, Contiguous, CutForm, MayCut, Sound, Inv, StartCommand, RecordAppend;
    Behind(w, c, g, i);
    StartForm(w.servers[i], g[i], c.servers[i], command);
    RealFollows(w, c, g, Submit(i, command), StartCommand(c.servers[i], command).0, {}, Do(c, Submit(i, command)).h);
  }

  // ----- replication -----

  lemma FreshUpdate(s: State, i: nat, r: Server, j: nat, t: nat)
    requires i < |s.servers| && Fresh(s, j, t) && (j == i ==> FreshServer(r, t))
    ensures Fresh(Update(s, i, r, {}, s.h), j, t)
  {
    hide FreshServer;
  }

  /** A step of the whole cluster alone, of server i, which sends nothing. */
  lemma QuietMayCut(w: State, w': State, i: nat, r: Server, k: Cutting)
    requires MayCut(w, i, k) && w' == Update(w, i, r, {}, w.h) && Advances(w, w')
    requires MayView(r, k.from, k.b) && FreshServer(r, k.t) && r.log == w.servers[i].log
    requires r.currentTerm >= w.servers[i].currentTerm
    ensures MayCut(w', i, k)
  {
    hide Fresh, FreshServer, HistGrows, CoreOf, Settled, MayView;
    var f := w.servers[i];
    FreshUpdate(w, i, r, i, k.t);
    SettledGrows(CoreOf(w), CoreOf(w'), f.log[..k.b + 1], f.currentTerm, r.currentTerm);
  }

  lemma QuietOthers(w: State, c: State, g: seq<Cutting>, i: nat, r: Server, c': State)
    requires Follows(w, c, g) && i < |c.servers| && |c'.servers| == |c.servers|
    requires forall j: nat :: j < |c.servers| && j != i ==> c'.servers[j] == c.servers[j]
    ensures OthersStay(w, c, Update(w, i, r, {}, w.h), c', i, g)
  {
    hide Sound, Fresh, Held, NetHeld, Deliveries;
    var w' := Update(w, i, r, {}, w.h);
    forall j: nat | j < |g| && j != i ensures Fresh(w', j, g[j].t) {
      HeldFresh(w, c, j, g[j]);
      FreshUpdate(w, i, r, j, g[j].t);
    }
  }

  lemma MayFresh(w: State, i: nat, k: Cutting)
    requires MayCut(w, i, k)
    ensures FreshServer(w.servers[i], k.t)
  {
  }

  lemma ProbeFollows(w: State, c: State, g: seq<Cutting>, i: nat, peer: nat, next: nat)
    requires Follows(w, c, g) && i < |c.servers| && i < |w.servers| && 1 <= next <= |w.servers[i].log|
    ensures Follows(Probed(w, i, peer, next), c, g)
  {
    hide Sound, MayCut, CutForm, OthersStay, NetHeld, Refusal, Deliveries, Advances, FreshServer;
    Behind(w, c, g, i);
    var f, k, w' := w.servers[i], g[i], Probed(w, i, peer, next);
    var r := f.(nextIndex := f.nextIndex[peer := next]);
    ProbeKeeps(w, i, peer, next);
    QuietOthers(w, c, g, i, r, c);
    ProbeForm(f, k, c.servers[i], r);
    MayFresh(w, i, k);
    FreshProbe(f, r, k.t);
    QuietMayCut(w, w', i, r, k);
    Assemble(w, c, g, w', c, i, k);
    assert g[i := k] == g;
  }

  lemma ProbeForm(f: Server, k: Cutting, x: Server, r: Server)
    requires CutForm(f, k, x) && Like(f, r)
    ensures CutForm(r, k, x) && MayView(r, k.from, k.b)
  {
  }

  lemma FreshProbe(f: Server, r: Server, t: nat)
    requires FreshServer(f, t) && Like(f, r)
    ensures FreshServer(r, t)
  {
  }

  lemma SendFollows(w: State, c: State, g: seq<Cutting>, i: nat, peer: nat) returns (next: nat)
    requires Follows(w, c, g) && WellFormed(c) && Enabled(c, SendAppend(i, peer))
    ensures i < |w.servers| && w.servers[i].role == Leader && 1 <= next <= |w.servers[i].log|
    ensures var w' := Probed(w, i, peer, next);
            WellFormed(w') && Enabled(w', SendAppend(i, peer)) && Follows(Do(w', SendAppend(i, peer)), Do(c, SendAppend(i, peer)), g)
  {
    hide Follows, Deliveries, Contiguous, CutForm, MayCut, Sound, Inv, PrepareAppend;
    Behind(w, c, g, i);
    var x := c.servers[i];
    next := IndexOf(x.nextIndex, peer);
    SendForm(w.servers[i], g[i], x, i, peer);
    ProbeFollows(w, c, g, i, peer, next);
    var w' := Probed(w, i, peer, next);
    Behind(w', c, g, i);
    var args := PrepareAppend(x, i, peer).args;
    RealFollows(w', c, g, SendAppend(i, peer), x, {Request(AppendRpc(i, c.epochs[i], peer, args))}, c.h);
  }

  lemma AppendFollows(w: State, c: State, g: seq<Cutting>, rpc: Rpc, room: bool)
    requires Follows(w, c, g) && WellFormed(c) && Enabled(c, ServeAppend(rpc, room))
    requires rpc.dst < |w.servers| && rpc.dst < |g| && Contiguous(w.servers[rpc.dst].log)
    requires Taken(w.servers[rpc.dst], rpc.append, g[rpc.dst].b)
    ensures WellFormed(w) && Enabled(w, ServeAppend(rpc, room))
    ensures Follows(Do(w, ServeAppend(rpc, room)), Do(c, ServeAppend(rpc, room)), g)
  {
    hide Follows, Deliveries, Contiguous, CutForm, Sound, Inv, HandleAppendEntries, RecordAck, Taken, Fits, Kept, AppendArgsOk, OfOldTerms,
         Fresh;
    var v := rpc.dst;
    Behind(w, c, g, v);
    Arrived(w, c, g, Request(rpc));
    var f, k, x := w.servers[v], g[v], c.servers[v];
    if rpc.append.term >= f.currentTerm { FitsInState(w, rpc, k.b); }
    AppendForm(f, k, x, rpc.append, room);
    var (y, reply) := HandleAppendEntries(x, rpc.append, room);
    RealFollows(w, c, g, ServeAppend(rpc, room), y, {AppendResponse(rpc, reply)}, Do(c, ServeAppend(rpc, room)).h);
  }

  lemma HearFollows(w: State, c: State, g: seq<Cutting>, rpc: Rpc, room: bool)
    requires Follows(w, c, g) && WellFormed(c) && Enabled(c, ServeAppend(rpc, room))
    requires rpc.dst < |w.servers| && rpc.dst < |g| && Contiguous(w.servers[rpc.dst].log)
    requires !Taken(w.servers[rpc.dst], rpc.append, g[rpc.dst].b)
    ensures WholeNext(w, Hear(rpc, room), Heard(w, rpc, room)) && Follows(Heard(w, rpc, room), Do(c, ServeAppend(rpc, room)), g)
  {
    hide Sound, MayCut, CutForm, OthersStay, NetHeld, Deliveries, Advances, FreshServer, HandleAppendEntries, AppendArgsOk, PrevMatches,
         Listening, Fits, Held, Inv, Contiguous;
    var v := rpc.dst;
    Behind(w, c, g, v);
    Arrived(w, c, g, Request(rpc));
    var f, k, x, w', c' := w.servers[v], g[v], c.servers[v], Heard(w, rpc, room), Do(c, ServeAppend(rpc, room));
    MayKept(w, v, k);
    FitsInState(w, rpc, k.b);
    TermsArePositive(w, v);
    RefuseForm(f, k, x, rpc.append, room);
    HearKeeps(w, rpc, room);
    QuietOthers(w, c, g, v, Listening(f, rpc.append, room), c');
    MayFresh(w, v, k);
    HeardServer(f, k, rpc.append, room);
    FormMay(Listening(f, rpc.append, room), k, HandleAppendEntries(x, rpc.append, room).0);
    QuietMayCut(w, w', v, Listening(f, rpc.append, room), k);
    MakesHeld(w', c', v, k);
    assert Refusal(w', AppendResponse(rpc, HandleAppendEntries(x, rpc.append, room).1));
    Assemble(w, c, g, w', c', v, k);
    assert g[v := k] == g;
  }

  lemma MakesHeld(w: State, c: State, i: nat, k: Cutting)
    requires i < |c.servers| && MayCut(w, i, k) && CutForm(w.servers[i], k, c.servers[i])
    ensures Held(w, c, i, k)
  {
  }

  lemma MayKept(w: State, i: nat, k: Cutting)
    requires MayCut(w, i, k)
    ensures Kept(CoreOf(w), w.servers[i], k.b)
  {
  }

  lemma HeardServer(f: Server, k: Cutting, args: AppendArgs, room: bool)
    requires FreshServer(f, k.t)
    ensures var r := Listening(f, args, room); FreshServer(r, k.t) && r.log == f.log && r.currentTerm >= f.currentTerm
  {
  }

  lemma TermsArePositive(s: State, i: nat)
    requires Inv(s) && i < |s.servers|
    ensures forall j :: 0 < j < |s.servers[i].log| ==> s.servers[i].log[j].term > 0
  {
    hide Inv;
    LogInOrder(s, i);
    forall j: nat | 0 < j < |s.servers[i].log| ensures s.servers[i].log[j].term > 0 {
      assert Backed(s.servers[i].log, s.h.termLog, j);
    }
  }

  /** What the handler of a reply asks of the leader holds, on either log. */
  lemma MayTakeThere(w: State, i: nat, k: Cutting, rpc: Rpc, reply: AppendReply)
    requires Sound(w) && MayCut(w, i, k) && rpc.AppendRpc? && rpc.src == i
    requires AppendResponse(rpc, reply) in w.net && i < |w.epochs| && w.epochs[i] == rpc.epoch
    ensures MayTake(w.servers[i], rpc.append, reply, k.b)
  {
    hide Inv, CoreOf, LogOk, OldTerms, TermsRising, Segment, At, Good, Kept;
    var f := w.servers[i];
    InGoodOrder(w, i);
    RisingTerms(f.log, w.h.termLog);
    MessageInNet(w, AppendResponse(rpc, reply));
    CommitIndexInLog(w, i);
    if rpc.append.term >= f.currentTerm {
      AnswersLeader(CoreOf(w), f, i, rpc.append);
      OlderTerms(w, i, k, AppendResponse(rpc, reply));
    }
  }

  lemma OlderTerms(w: State, i: nat, k: Cutting, m: Message)
    requires MayCut(w, i, k) && m in w.net && OwnAppend(w, i, m) && m.rpc.append.term <= w.servers[i].currentTerm
    requires w.servers[i].lastApplied == w.servers[i].commitIndex
    ensures OldTerms(w.servers[i], k.b)
  {
    hide Kept;
  }

  lemma ReplyFollows(w: State, c: State, g: seq<Cutting>, rpc: Rpc, reply: AppendReply)
    requires Follows(w, c, g) && WellFormed(c) && Enabled(c, TakeAppend(rpc, reply)) && AppendResponse(rpc, reply) in w.net
    ensures WellFormed(w) && Enabled(w, TakeAppend(rpc, reply))
    ensures Follows(Do(w, TakeAppend(rpc, reply)), Do(c, TakeAppend(rpc, reply)), g)
  {
    hide Follows, Deliveries, Contiguous, CutForm, MayCut, Sound, Inv, HandleAppendReply, MayTake;
    var i := rpc.src;
    Behind(w, c, g, i);
    MayTakeThere(w, i, g[i], rpc, reply);
    ReplyForm(w.servers[i], g[i], c.servers[i], |c.servers|, rpc.dst, rpc.append, reply);
    RealFollows(w, c, g, TakeAppend(rpc, reply), HandleAppendReply(c.servers[i], |c.servers|, rpc.dst, rpc.append, reply), {}, c.h);
  }

  /** Nothing happens on the whole side. */
  lemma StutterFollows(w: State, c: State, g: seq<Cutting>, i: nat, k: Cutting, x: Server)
    requires Follows(w, c, g) && i < |c.servers| && i < |w.servers| && MayCut(w, i, k) && CutForm(w.servers[i], k, x)
    ensures Follows(w, Update(c, i, x, {}, c.h), g[i := k])
  {
    hide MayCut, CutForm, Sound, NetHeld, Deliveries, Advances, Refusal;
    var c' := Update(c, i, x, {}, c.h);
    AdvancesReflexive(w);
    forall j: nat | j < |g| && j != i ensures Fresh(w, j, g[j].t) { HeldFresh(w, c, j, g[j]); }
    Assemble(w, c, g, w, c', i, k);
  }

  lemma RefusedFollows(w: State, c: State, g: seq<Cutting>, rpc: Rpc, reply: AppendReply)
    requires Follows(w, c, g) && WellFormed(c) && Enabled(c, TakeAppend(rpc, reply)) && Refusal(w, AppendResponse(rpc, reply))
    ensures Follows(w, Do(c, TakeAppend(rpc, reply)), g)
  {
    hide Follows, Deliveries, Contiguous, CutForm, MayCut, Sound, Inv, HandleAppendReply;
    var i := rpc.src;
    Behind(w, c, g, i);
    var f, k, x := w.servers[i], g[i], c.servers[i];
    OwnTermAtMost(w, i, rpc);
    RefusedForm(f, k, x, |c.servers|, rpc.dst, rpc.append, reply);
    StutterFollows(w, c, g, i, k, HandleAppendReply(x, |c.servers|, rpc.dst, rpc.append, reply));
    assert g[i := k] == g;
  }

  /** A leader never sent a term beyond its own. */
  lemma OwnTermAtMost(w: State, i: nat, rpc: Rpc)
    requires Inv(w) && i < |w.servers| && rpc.AppendRpc? && rpc.src == i && Request(rpc) in w.net
    ensures rpc.append.term <= w.servers[i].currentTerm
  {
    hide CoreInv, NetOk, DeliveredOk, CoreOf, ServersOk, Segment, Good;
    MessageInNet(w, Request(rpc));
    InGoodOrder(w, i);
    if rpc.append.term >= w.servers[i].currentTerm { AnswersLeader(CoreOf(w), w.servers[i], i, rpc.append); }
  }

  // ----- restarts and compaction -----

  lemma RestartMayCut(w: State, i: nat, k: Cutting, r: Server)
    requires Sound(w) && Enabled(w, Restart(i)) && MayCut(w, i, k) && r == Boot(w.servers[i].disk)
    requires MayView(r, k.b, k.b)
    ensures MayCut(Do(w, Restart(i)), i, Cutting(k.b, k.b, r.currentTerm))
  {
    hide Inv, EpochsOk, HandedOn, WellFormed, Enabled, CoreOf, Kept, MayView, Boot, Fresh;
    var w' := Do(w, Restart(i));
    assert w'.servers[i] == r;
    StepKept(w, Restart(i), i, k.b);
    FreshStart(w, i);
    RealKeeps(w, Restart(i));
    forall j | 0 <= j <= k.b ensures r.log[j].term <= r.currentTerm {
      TermsInLog(w', i, j);
    }
  }

  lemma RestartFollows(w: State, c: State, g: seq<Cutting>, i: nat) returns (g': seq<Cutting>)
    requires Follows(w, c, g) && WellFormed(c) && Enabled(c, Restart(i))
    ensures WellFormed(w) && Enabled(w, Restart(i)) && Follows(Do(w, Restart(i)), Do(c, Restart(i)), g')
    ensures i < |g'| == |g| && g' == g[i := g'[i]] && g'[i].from == g'[i].b == g[i].b
  {
    hide Sound, MayCut, CutForm, NetHeld, Deliveries, Advances, Fresh, Held, Inv, Contiguous, Boot;
    Behind(w, c, g, i);
    CanRestart(w, i);
    var f, w', c' := w.servers[i], Do(w, Restart(i)), Do(c, Restart(i));
    var k := Cutting(g[i].b, g[i].b, w'.servers[i].currentTerm);
    BootForm(f, g[i], c.servers[i], k.t);
    FormMay(Boot(f.disk), k, Boot(c.servers[i].disk));
    RestartMayCut(w, i, g[i], w'.servers[i]);
    RealKeeps(w, Restart(i));
    OthersFollow(w, c, g, Restart(i), c');
    MakesHeld(w', c', i, k);
    Assemble(w, c, g, w', c', i, k);
    g' := g[i := k];
  }

  lemma CanRestart(w: State, i: nat)
    requires Inv(w) && WellFormed(w) && i < |w.servers|
    ensures Enabled(w, Restart(i)) && Synced(w.servers[i]) && Boot(w.servers[i].disk).log == w.servers[i].log
  {
    hide Inv;
    InGoodOrder(w, i);
  }

  lemma CompactionFollows(w: State, c: State, g: seq<Cutting>, i: nat, index: nat)
    requires Follows(w, c, g) && Allowed(c, Compaction(i, index))
    ensures i < |g| && Follows(w, Make(c, Compaction(i, index)), g[i := Cutting(g[i].from, index, g[i].t)])
  {
    hide Follows, Sound, MayCut, CutForm, Inv, Contiguous, Compact;
    Behind(w, c, g, i);
    var f, k, x := w.servers[i], g[i], c.servers[i];
    CutAhead(w, i, k, x, index);
    CompactForm(f, k, x, index);
    StutterFollows(w, c, g, i, Cutting(k.from, index, k.t), Compact(x, index));
  }

  lemma CutAhead(w: State, i: nat, k: Cutting, x: Server, index: nat)
    requires Sound(w) && MayCut(w, i, k) && CutForm(w.servers[i], k, x) && Contiguous(x.log)
    requires 0 < index <= x.lastApplied && x.log[0].index <= index <= LastIndex(x.log)
    ensures Persist(w.servers[i]) == w.servers[i] && k.b <= index <= w.servers[i].lastApplied
    ensures MayCut(w, i, Cutting(k.from, index, k.t))
  {
    hide Inv, EpochsOk, HandedOn, WellFormed, CoreOf, Fresh, Settled;
    var f := w.servers[i];
    FormParts(f, k, x);
    InGoodOrder(w, i);
    AppliedKept(w, i, index);
    CutViewsAt(f, k, x, index);
  }

  lemma CutViewsAt(f: Server, k: Cutting, x: Server, index: nat)
    requires CutForm(f, k, x) && Synced(f) && x.log == f.log[k.b..] && k.b < |f.log|
    requires x.log[0].index <= index <= f.lastApplied && 0 < index
    ensures k.b <= index && MayView(f, k.from, index) && Persist(f) == f
  {
  }

  // ----- whole runs -----

  ghost predicate Chain(states: seq<State>, moves: seq<Whole>) {
    |states| == |moves| + 1 && forall k :: 0 <= k < |moves| ==> WholeNext(states[k], moves[k], states[k + 1])
  }

  /** What is submitted to the whole cluster is what is submitted to this one. */
  ghost predicate SubmitsAs(moves: seq<Whole>, step: Step) {
    forall k :: 0 <= k < |moves| && moves[k].Real? && moves[k].step.Submit? ==> moves[k].step == step
  }

  /** How a step changes where logs begin: a restart begins with what is left of its server's log. */
  ghost predicate CutsAfter(g: seq<Cutting>, move: Move, g': seq<Cutting>) {
    match move
    case Take(step) =>
      if step.Restart? then
        step.i < |g| == |g'| && g' == g[step.i := g'[step.i]] && g'[step.i].from == g'[step.i].b == g[step.i].b
      else g' == g
    case Compaction(i, index) => i < |g| && g' == g[i := Cutting(g[i].from, index, g[i].t)]
  }

  /** One move of the cluster is none, one or two of the whole one. */
  lemma MoveFollows(w: State, c: State, g: seq<Cutting>, move: Move) returns (states: seq<State>, moves: seq<Whole>, g': seq<Cutting>)
    requires Follows(w, c, g) && Allowed(c, move)
    ensures Chain(states, moves) && states[0] == w && Follows(states[|moves|], Make(c, move), g') && CutsAfter(g, move, g')
    ensures forall k :: 0 <= k < |moves| && moves[k].Real? && moves[k].step.Submit? ==> move == Take(moves[k].step)
  {
    hide Follows, Enabled, Do, CutForm, Taken, Refusal, Heard, Probed, WellFormed;
    match move
    case Compaction(i, index) =>
      CompactionFollows(w, c, g, i, index);
      states, moves, g' := [w], [], g[i := Cutting(g[i].from, index, g[i].t)];
    case Take(step) =>
      states, moves, g' := StepFollows(w, c, g, step);
  }

  lemma ChainNone(w: State)
    ensures Chain([w], [])
  {
  }

  lemma ChainOne(w: State, m: Whole, w': State)
    requires WholeNext(w, m, w')
    ensures Chain([w, w'], [m])
  {
  }

  lemma ChainTwo(w: State, m: Whole, w': State, m': Whole, w'': State)
    requires WholeNext(w, m, w') && WholeNext(w', m', w'')
    ensures Chain([w, w', w''], [m, m'])
  {
  }

  lemma StepReal(w: State, step: Step)
    requires WellFormed(w) && Enabled(w, step)
    ensures WholeNext(w, Real(step), Do(w, step)) && Chain([w, Do(w, step)], [Real(step)]) && SubmitsAs([Real(step)], step)
  {
    hide Enabled, Do, Chain;
    ChainOne(w, Real(step), Do(w, step));
  }

  lemma NothingSubmitted(a: seq<Whole>, step: Step)
    requires forall k :: 0 <= k < |a| ==> !a[k].Real? || a[k].step == step
    ensures SubmitsAs(a, step)
  {
  }

  /** The steps in which a cut log cannot be noticed. */
  lemma PlainFollows(w: State, c: State, g: seq<Cutting>, step: Step)
    requires Follows(w, c, g) && WellFormed(c) && Enabled(c, step)
    requires step.EnterCandidate? || step.StepDown? || step.BeginElection? || step.ServeVote? || step.TakeVote? || step.Submit?
    ensures WellFormed(w) && Enabled(w, step) && Follows(Do(w, step), Do(c, step), g)
  {
    hide Follows, Do, WellFormed, Enabled;
    match step
    case EnterCandidate(i) => RoleFollows(w, c, g, step);
    case StepDown(i) => RoleFollows(w, c, g, step);
    case BeginElection(i) => ElectionFollows(w, c, g, i);
    case ServeVote(rpc) => VoteFollows(w, c, g, rpc);
    case TakeVote(rpc, reply) => TallyFollows(w, c, g, rpc, reply);
    case Submit(i, command) => SubmitFollows(w, c, g, i, command);
    case _ =>
  }

  lemma ProbeReal(w: State, i: nat, peer: nat, next: nat, step: Step)
    requires i < |w.servers| && peer < |w.servers| && w.servers[i].role == Leader && 1 <= next <= |w.servers[i].log|
    requires WellFormed(Probed(w, i, peer, next)) && Enabled(Probed(w, i, peer, next), step)
    ensures var w' := Probed(w, i, peer, next);
            Chain([w, w', Do(w', step)], [Probe(i, peer, next), Real(step)]) && SubmitsAs([Probe(i, peer, next), Real(step)], step)
  {
    hide Probed, Enabled, Do, WellFormed, Chain, SubmitsAs;
    var w' := Probed(w, i, peer, next);
    ChainTwo(w, Probe(i, peer, next), w', Real(step), Do(w', step));
    NothingSubmitted([Probe(i, peer, next), Real(step)], step);
  }

  lemma SendChain(w: State, c: State, g: seq<Cutting>, i: nat, peer: nat) returns (states: seq<State>, moves: seq<Whole>)
    requires Follows(w, c, g) && WellFormed(c) && Enabled(c, SendAppend(i, peer))
    ensures Chain(states, moves) && states[0] == w && Follows(states[|moves|], Do(c, SendAppend(i, peer)), g)
    ensures SubmitsAs(moves, SendAppend(i, peer))
  {
    hide Follows, Do, Probed, PrepareAppend, WellFormed, Chain, SubmitsAs;
    var next := SendFollows(w, c, g, i, peer);
    FollowsSizes(w, c, g);
    ProbeReal(w, i, peer, next, SendAppend(i, peer));
    var w' := Probed(w, i, peer, next);
    states, moves := [w, w', Do(w', SendAppend(i, peer))], [Probe(i, peer, next), Real(SendAppend(i, peer))];
  }

  lemma FollowsSizes(w: State, c: State, g: seq<Cutting>)
    requires Follows(w, c, g)
    ensures |w.servers| == |c.servers| == |g|
  {
  }

  lemma AppendChain(w: State, c: State, g: seq<Cutting>, rpc: Rpc, room: bool) returns (states: seq<State>, moves: seq<Whole>)
    requires Follows(w, c, g) && WellFormed(c) && Enabled(c, ServeAppend(rpc, room))
    ensures Chain(states, moves) && states[0] == w && Follows(states[|moves|], Do(c, ServeAppend(rpc, room)), g)
    ensures SubmitsAs(moves, ServeAppend(rpc, room))
  {
    hide Follows, Do, Taken, Heard, Sound, MayCut, CutForm, Contiguous, WellFormed, Servable, Chain, WholeNext, SubmitsAs;
    Behind(w, c, g, rpc.dst);
    if Taken(w.servers[rpc.dst], rpc.append, g[rpc.dst].b) {
      AppendFollows(w, c, g, rpc, room);
      StepReal(w, ServeAppend(rpc, room));
      states, moves := [w, Do(w, ServeAppend(rpc, room))], [Real(ServeAppend(rpc, room))];
    } else {
      HearFollows(w, c, g, rpc, room);
      ChainOne(w, Hear(rpc, room), Heard(w, rpc, room));
      states, moves := [w, Heard(w, rpc, room)], [Hear(rpc, room)];
      NothingSubmitted(moves, ServeAppend(rpc, room));
    }
  }

  lemma ReplyChain(w: State, c: State, g: seq<Cutting>, rpc: Rpc, reply: AppendReply) returns (states: seq<State>, moves: seq<Whole>)
    requires Follows(w, c, g) && WellFormed(c) && Enabled(c, TakeAppend(rpc, reply))
    ensures Chain(states, moves) && states[0] == w && Follows(states[|moves|], Do(c, TakeAppend(rpc, reply)), g)
    ensures SubmitsAs(moves, TakeAppend(rpc, reply))
  {
    hide Follows, Do, Refusal, WellFormed, Chain, WholeNext, SubmitsAs;
    Arrived(w, c, g, AppendResponse(rpc, reply));
    if AppendResponse(rpc, reply) in w.net {
      ReplyFollows(w, c, g, rpc, reply);
      StepReal(w, TakeAppend(rpc, reply));
      states, moves := [w, Do(w, TakeAppend(rpc, reply))], [Real(TakeAppend(rpc, reply))];
    } else {
      RefusedFollows(w, c, g, rpc, reply);
      ChainNone(w);
      states, moves := [w], [];
      NothingSubmitted(moves, TakeAppend(rpc, reply));
    }
  }

  lemma StepFollows(w: State, c: State, g: seq<Cutting>, step: Step) returns (states: seq<State>, moves: seq<Whole>, g': seq<Cutting>)
    requires Follows(w, c, g) && WellFormed(c) && Enabled(c, step)
    ensures Chain(states, moves) && states[0] == w && Follows(states[|moves|], Do(c, step), g')
    ensures SubmitsAs(moves, step) && CutsAfter(g, Take(step), g')
  {
    hide Follows, Do, WellFormed, Chain, WholeNext, Enabled;
    g' := g;
    match step
    case SendAppend(i, peer) => states, moves := SendChain(w, c, g, i, peer);
    case ServeAppend(rpc, room) => states, moves := AppendChain(w, c, g, rpc, room);
    case TakeAppend(rpc, reply) => states, moves := ReplyChain(w, c, g, rpc, reply);
    case Restart(i) =>
      g' := RestartFollows(w, c, g, i);
      StepReal(w, step);
      states, moves := [w, Do(w, step)], [Real(step)];
    case _ =>
      PlainFollows(w, c, g, step);
      StepReal(w, step);
      states, moves := [w, Do(w, step)], [Real(step)];
  }

  lemma StartsFollowed(n: nat) returns (g: seq<Cutting>)
    ensures Follows(Init(n), Init(n), g)
  {
    hide Inv;
    StartsSound(n);
    var s := Init(n);
    g := seq(n, i => Cutting(0, 0, 0));
    forall i | 0 <= i < n ensures Held(s, s, i, g[i]) {
      AppliedKept(s, i, 0);
      FreshAtFirst(n, i);
      StartsCut(s.servers[i]);
    }
  }

  lemma StartsCut(f: Server)
    requires f == Boot(None)
    ensures CutForm(f, Cutting(0, 0, 0), f) && OfOldTerms(f, Cutting(0, 0, 0))
  {
    assert f.log[0..] == f.log;
    assert Messages(f.log, 1, 1) == [];
  }
}
