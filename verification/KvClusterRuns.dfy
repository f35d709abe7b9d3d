/** What the servers of such a cluster apply is one log: every run of it is a run of the service around a
    committed log, so it is linearizable. */
module KvClusterRuns {
  import opened Commands
  import opened RaftServer
  import opened RaftCore
  import opened RaftCommitted
  import opened RaftSystem
  import opened RaftSafety
  import opened RaftTheorems
  import opened RaftCompaction
  import opened RaftCompactionRuns
  import opened RaftCompacted
  import opened RaftCompactedRuns
  import opened RaftCutForm
  import opened RaftFollowed
  import opened KvCluster
  import RaftCompactedTheorems
  import KvCuts
  import KvInv
  import KvLinear
  import KvOnRaft
  import KvOvertaking

  // ----- what the whole cluster behind it records -----

  lemma WholeSubmits(s: State, m: Whole, t: State, commands: set<Command>)
    requires Sound(s) && WholeNext(s, m, t) && KvOnRaft.TermLogsIn(s.h, commands)
    requires m.Real? && m.step.Submit? ==> m.step.command in commands
    ensures KvOnRaft.TermLogsIn(t.h, commands)
  {
    hide Inv, Enabled, Do, EpochsOk, HandedOn, KvOnRaft.TermLogsIn;
    if m.Real? { KvOnRaft.StepSubmits(s, m.step, commands, commands); }
  }

  ghost predicate SubmitsOnly(moves: seq<Whole>, commands: set<Command>) {
    forall k :: 0 <= k < |moves| && moves[k].Real? && moves[k].step.Submit? ==> moves[k].step.command in commands
  }

  lemma {:induction false} ChainKeeps(states: seq<State>, moves: seq<Whole>, commands: set<Command>)
    requires Chain(states, moves) && Sound(states[0]) && KvOnRaft.TermLogsIn(states[0].h, commands) && SubmitsOnly(moves, commands)
    ensures var last := states[|moves|];
            Sound(last) && Advances(states[0], last) && KvOnRaft.TermLogsIn(last.h, commands)
    decreases |moves|
  {
    hide Sound, WholeNext, Advances, KvOnRaft.TermLogsIn;
    var k := |moves|;
    AdvancesReflexive(states[0]);
    if k > 0 {
      ShorterChain(states, moves);
      ChainKeeps(states[..k], moves[..k - 1], commands);
      assert WholeNext(states[k - 1], moves[k - 1], states[k - 1 + 1]);
      WholeKeeps(states[k - 1], moves[k - 1], states[k]);
      WholeSubmits(states[k - 1], moves[k - 1], states[k], commands);
      AdvancesTransitive(states[0], states[k - 1], states[k]);
    }
  }

  lemma ShorterChain(states: seq<State>, moves: seq<Whole>)
    requires Chain(states, moves) && |moves| > 0
    ensures Chain(states[..|moves|], moves[..|moves| - 1])
  {
    hide WholeNext;
    forall k | 0 <= k < |moves| - 1 ensures WholeNext(states[..|moves|][k], moves[..|moves| - 1][k], states[..|moves|][k + 1]) {
      assert WholeNext(states[k], moves[k], states[k + 1]);
    }
  }

  /** What has been delivered was submitted. */
  lemma DeliveredIsSubmitted(w: State, commands: set<Command>, d: Delivery)
    requires Sound(w) && KvOnRaft.TermLogsIn(w.h, commands) && d in w.delivered
    ensures d.msg.index >= 1 && d.msg.command in commands
  {
    hide CoreInv, ServersOk, NetOk;
    var c := CoreOf(w);
    assert DeliveryOk(c, d.msg);
    var log: seq<Entry>, bound: nat :| Settled(c, log, bound) && 1 <= d.msg.index < |log| && log[d.msg.index].command == d.msg.command;
    var t: nat, k: nat :| Committed(c, t, k) && t <= bound && |log| <= k + 1 && log <= c.h.termLog[t];
    assert KvOnRaft.AllIn(w.h.termLog[t], commands);
    assert log[d.msg.index] == w.h.termLog[t][d.msg.index];
  }

  // ----- one log -----

  ghost predicate Delivers(w: State, i: nat, k: nat, op: Kv.Operation) {
    Delivery(i, ApplyMsg(k + 1, op)) in w.delivered
  }

  ghost predicate DeliveredAs(w: State, k: nat, op: Kv.Operation) {
    exists i: nat :: Delivers(w, i, k, op)
  }

  /** Every entry of the log has been handed over, at its index. */
  ghost predicate OnRecord(w: State, log: seq<Kv.Operation>) {
    forall k: nat :: k < |log| ==> DeliveredAs(w, k, log[k])
  }

  /** So whatever is handed over at an index of the log is the entry there. */
  lemma RecordDecides(w: State, log: seq<Kv.Operation>, d: Delivery)
    requires Sound(w) && OnRecord(w, log) && d in w.delivered && 1 <= d.msg.index <= |log|
    ensures d.msg.command == log[d.msg.index - 1]
  {
    hide Sound;
    assert DeliveredAs(w, d.msg.index - 1, log[d.msg.index - 1]);
    var i: nat :| Delivers(w, i, d.msg.index - 1, log[d.msg.index - 1]);
    RaftCompactedTheorems.DeliveredAgree(w, d, Delivery(i, ApplyMsg(d.msg.index, log[d.msg.index - 1])));
  }

  lemma RecordStays(w: State, w': State, log: seq<Kv.Operation>)
    requires OnRecord(w, log) && Advances(w, w')
    ensures OnRecord(w', log)
  {
    forall k: nat | k < |log| ensures DeliveredAs(w', k, log[k]) {
      assert DeliveredAs(w, k, log[k]);
      var i: nat :| Delivers(w, i, k, log[k]);
      assert Delivers(w', i, k, log[k]);
    }
  }

  // ----- what joins the peers to the service -----

  /** Server i's loop is where its peer's stream is, and both agree on where the peer's log begins. */
  ghost predicate Placed(s: Cluster, i: nat, k: Cutting)
    requires Sized(s) && i < |s.consumed|
  {
    var srv, stream := s.service.servers[i], s.raft.servers[i].applyCh;
    s.consumed[i] <= |stream| && srv.delivered + 1 == Later(k.from, 1) + s.consumed[i] && srv.base == k.b && KvCuts.CutsOk(srv)
    && forall p :: 0 <= p < |stream| ==> stream[p].index <= |s.service.log|
  }

  ghost predicate AllPlaced(s: Cluster, g: seq<Cutting>) {
    Sized(s) && |g| == |s.consumed| && forall i: nat :: i < |s.consumed| ==> Placed(s, i, g[i])
  }

  ghost predicate Joined(s: Cluster, w: State, g: seq<Cutting>) {
    Sized(s) && Follows(w, s.raft, g) && KvOvertaking.Sound(s.service)
    && KvOnRaft.TermLogsIn(w.h, s.service.requests) && OnRecord(w, s.service.log) && AllPlaced(s, g)
  }

  /** Each peer's stream is a series from where its log began. */
  lemma StreamIsSeries(w: State, c: State, g: seq<Cutting>, i: nat, requests: set<Kv.Operation>)
    requires Follows(w, c, g) && i < |c.servers| && KvOnRaft.TermLogsIn(w.h, requests)
    ensures i < |g| && Series(c.servers[i].applyCh, Later(g[i].from, 1))
    ensures forall m :: m in c.servers[i].applyCh ==> Delivery(i, m) in w.delivered && m.index >= 1 && m.command in requests
  {
    hide Follows, Sound, Inv, CutForm, MayCut, KvOnRaft.TermLogsIn, Contiguous;
    Behind(w, c, g, i);
    CommitIndexInLog(w, i);
    RaftCompactedTheorems.HandedOver(w.servers[i], g[i], c.servers[i]);
    CutHandsOver(w, i, g[i], c.servers[i]);
    forall m | m in c.servers[i].applyCh ensures Delivery(i, m) in w.delivered && m.index >= 1 && m.command in requests {
      assert Delivery(i, m) in Deliveries(i, c.servers[i].applyCh);
      DeliveredIsSubmitted(w, requests, Delivery(i, m));
    }
  }

  // ----- what each event does to the service -----

  /** The peers' move, seen from the service: nothing it relies on is lost. */
  lemma MoveJoined(s: Cluster, w: State, g: seq<Cutting>, move: Move) returns (w': State, g': seq<Cutting>)
    requires Joined(s, w, g) && Allowed(s.raft, move)
    requires forall i, c :: move == Take(Submit(i, c)) ==> c in s.service.requests
    ensures Follows(w', Make(s.raft, move), g') && CutsAfter(g, move, g')
    ensures KvOnRaft.TermLogsIn(w'.h, s.service.requests) && OnRecord(w', s.service.log)
  {
    hide Follows, Make, Allowed, WholeNext, KvOnRaft.TermLogsIn, OnRecord, KvOvertaking.Sound, AllPlaced, Sound, CutsAfter, Advances;
    var states, moves, h := MoveFollows(w, s.raft, g, move);
    FollowsSound(w, s.raft, g);
    ChainKeeps(states, moves, s.service.requests);
    w', g' := states[|moves|], h;
    RecordStays(w, w', s.service.log);
  }

  lemma FollowsSound(w: State, c: State, g: seq<Cutting>)
    requires Follows(w, c, g)
    ensures Sound(w) && |g| == |c.servers| == |w.servers|
  {
  }

  /** Service steps from one state to another, no handler overtaking one of a call in progress. */
  ghost predicate Path(v: Service.State, states: seq<Service.State>, steps: seq<Service.Step>, t: Service.State, ordered: bool) {
    KvOvertaking.Chain(states, steps) && states[0] == v && states[|steps|] == t
    && (ordered ==> forall k :: 0 <= k < |steps| ==> Service.InOrder(states[k], steps[k]))
  }

  lemma OneStep(v: Service.State, step: Service.Step, ordered: bool)
    requires Service.Enabled(v, step) && (ordered ==> Service.InOrder(v, step))
    ensures Path(v, [v, Service.Do(v, step)], [step], Service.Do(v, step), ordered)
  {
  }

  lemma NoStep(v: Service.State, ordered: bool)
    ensures Path(v, [v], [], v, ordered)
  {
  }

  lemma CommitPath(v: Service.State, log: seq<Kv.Operation>, ordered: bool)
    returns (states: seq<Service.State>, steps: seq<Service.Step>)
    requires v.log <= log && forall k :: |v.log| <= k < |log| ==> log[k] in v.requests
    ensures Path(v, states, steps, v.(log := log), ordered)
  {
    var ops := log[|v.log|..];
    assert v.log + ops == log;
    states, steps := KvOnRaft.CommitAll(v, ops);
    forall k | 0 <= k < |steps| ensures Service.Next(states[k], steps[k], states[k + 1]) && Service.InOrder(states[k], steps[k]) {
      assert steps[k].Commit?;
    }
  }

  lemma {:induction false} PathSound(v: Service.State, states: seq<Service.State>, steps: seq<Service.Step>, t: Service.State, ordered: bool)
    requires Path(v, states, steps, t, ordered) && KvOvertaking.Sound(v)
    ensures KvOvertaking.Sound(t)
    decreases |steps|
  {
    hide KvOvertaking.Sound, Service.Enabled, Service.Do, Service.InOrder;
    var k := |steps|;
    if k > 0 {
      assert Service.Next(states[k - 1], steps[k - 1], states[k - 1 + 1]);
      forall j | 0 <= j < k - 1 ensures Service.Next(states[..k][j], steps[..k - 1][j], states[..k][j + 1]) {
        assert Service.Next(states[j], steps[j], states[j + 1]);
      }
      PathSound(v, states[..k], steps[..k - 1], states[k - 1], false);
      KvOvertaking.StepSound(states[k - 1], steps[k - 1]);
    }
  }

  lemma DeliveredInLog(v: Service.State, i: nat)
    requires KvOvertaking.Sound(v) && i < |v.servers|
    ensures v.servers[i].delivered <= |v.log|
  {
    assert KvOvertaking.ServerSound(|v.log|, v.servers[i]);
  }

  lemma PlacedAt(s: Cluster, g: seq<Cutting>, i: nat)
    requires AllPlaced(s, g) && i < |s.consumed|
    ensures i < |g| && Placed(s, i, g[i])
  {
  }

  /** A region of a peer: the log grows by what it hands over first. */
  lemma RaftJoins(s: Cluster, w: State, g: seq<Cutting>, step: Step, ordered: bool)
    returns (w': State, states: seq<Service.State>, steps: seq<Service.Step>)
    requires Joined(s, w, g) && Occurs(s, Raft(step))
    ensures var t := After(s, Raft(step)); Joined(t, w', g) && Path(s.service, states, steps, t.service, ordered)
  {
    hide Follows, KvOnRaft.TermLogsIn, OnRecord, KvOvertaking.Sound, AllPlaced, Path, Enabled, Do, WellFormed, Placed;
    var i, t := Actor(step), After(s, Raft(step));
    var g';
    w', g' := MoveJoined(s, w, g, Take(step));
    OnlyActor(s.raft, step);
    AfterSized(s.raft, step, w', g);
    PlacedAt(s, g, i);
    StreamIsSeries(w', t.raft, g, i, s.service.requests);
    FirstInLog(s, i, g[i]);
    RecordedExact(s.service.log, t.raft.servers[i].applyCh, Later(g[i].from, 1));
    RecordGrows(w', s.service.log, t.service.log, t.raft.servers[i].applyCh, Later(g[i].from, 1), i, s.service.requests);
    states, steps := CommitPath(s.service, t.service.log, ordered);
    PathSound(s.service, states, steps, t.service, ordered);
    RaftPlaces(s, t, g, step);
  }

  lemma AfterSized(c: State, step: Step, w: State, g: seq<Cutting>)
    requires WellFormed(c) && Enabled(c, step) && Follows(w, Do(c, step), g)
    ensures WellFormed(Do(c, step)) && |Do(c, step).servers| == |c.servers|
  {
    hide Follows, Enabled, Do;
    RaftCompactedTheorems.AllBehind(w, Do(c, step), g);
    OnlyActor(c, step);
  }

  lemma FirstInLog(s: Cluster, i: nat, k: Cutting)
    requires Sized(s) && i < |s.consumed| && Placed(s, i, k) && KvOvertaking.Sound(s.service)
    ensures Later(k.from, 1) <= |s.service.log| + 1
  {
    hide KvOvertaking.Sound;
    DeliveredInLog(s.service, i);
  }

  lemma RecordGrows(w: State, log: seq<Kv.Operation>, longer: seq<Kv.Operation>, stream: seq<ApplyMsg>, first: nat, i: nat,
                    requests: set<Kv.Operation>)
    requires OnRecord(w, log) && log <= longer && Series(stream, first)
    requires forall m :: m in stream ==> Delivery(i, m) in w.delivered && m.command in requests
    requires forall k :: |log| <= k < |longer| ==> 0 <= k + 1 - first < |stream| && longer[k] == stream[k + 1 - first].command
    ensures OnRecord(w, longer) && forall k :: |log| <= k < |longer| ==> longer[k] in requests
  {
    forall k: nat | k < |longer| ensures DeliveredAs(w, k, longer[k]) && (k >= |log| ==> longer[k] in requests) {
      if k < |log| {
        assert DeliveredAs(w, k, log[k]);
      } else {
        var op := longer[k];
        var m := stream[k + 1 - first];
        assert m in stream && m == ApplyMsg(k + 1, op);
        assert Delivers(w, i, k, longer[k]);
      }
    }
  }

  lemma RaftPlaces(s: Cluster, t: Cluster, g: seq<Cutting>, step: Step)
    requires AllPlaced(s, g) && Occurs(s, Raft(step)) && t == After(s, Raft(step)) && Sized(t)
    requires |t.service.log| >= |s.service.log|
    requires var i := Actor(step); i < |t.raft.servers| && forall p :: 0 <= p < |t.raft.servers[i].applyCh| ==> t.raft.servers[i].applyCh[p].index <= |t.service.log|
    ensures AllPlaced(t, g)
  {
    hide Enabled, Do, WellFormed, KvCuts.CutsOk;
    OnlyActor(s.raft, step);
    forall i: nat | i < |t.consumed| ensures Placed(t, i, g[i]) {
      assert Placed(s, i, g[i]);
      StreamGrows(s.raft, step, i);
    }
  }

  /** A handler's Start reaches the peer; nothing is handed over by it. */
  lemma StartJoins(s: Cluster, w: State, g: seq<Cutting>, i: nat, op: Kv.Operation) returns (w': State)
    requires Joined(s, w, g) && Occurs(s, Start(i, op))
    ensures Joined(After(s, Start(i, op)), w', g)
  {
    hide Follows, KvOnRaft.TermLogsIn, OnRecord, KvOvertaking.Sound, AllPlaced, Do, WellFormed, Placed;
    var t := After(s, Start(i, op));
    var g';
    w', g' := MoveJoined(s, w, g, Take(Submit(i, op)));
    AfterSized(s.raft, Submit(i, op), w', g);
    forall j: nat | j < |s.consumed| ensures t.raft.servers[j].applyCh == s.raft.servers[j].applyCh {
      SubmitHandsNothing(s.raft, i, op, j);
    }
    SamePlaces(s, t, g);
  }

  /** Nothing changed that places depend on. */
  lemma SamePlaces(s: Cluster, t: Cluster, g: seq<Cutting>)
    requires AllPlaced(s, g) && Sized(t) && t.consumed == s.consumed
    requires |t.raft.servers| == |s.raft.servers| && t.service.log == s.service.log
    requires forall j: nat :: j < |s.consumed| ==> t.raft.servers[j].applyCh == s.raft.servers[j].applyCh
    requires forall j: nat :: j < |s.consumed| ==> SamePlace(s.service.servers[j], t.service.servers[j])
    ensures AllPlaced(t, g)
  {
    hide WellFormed;
    forall i: nat | i < |t.consumed| ensures Placed(t, i, g[i]) { assert Placed(s, i, g[i]); }
  }

  ghost predicate SamePlace(a: Service.Server, b: Service.Server) {
    b.delivered == a.delivered && b.base == a.base && b.last == a.last && b.cuts == a.cuts
  }

  /** The loop takes the next message: it is the next entry of the log. */
  lemma ApplyJoins(s: Cluster, w: State, g: seq<Cutting>, i: nat, to: Kv.Operation, full: bool)
    requires Joined(s, w, g) && Occurs(s, Apply(i, to, full))
    ensures var t := After(s, Apply(i, to, full)); var step := Service.Deliver(i, to, full);
            Joined(t, w, g) && Service.Enabled(s.service, step) && t.service == Service.Do(s.service, step)
  {
    hide Follows, KvOnRaft.TermLogsIn, OnRecord, KvOvertaking.Sound, AllPlaced, WellFormed, Placed, Service.DeliverTo;
    NextIsNext(s, w, g, i);
    var t, step := After(s, Apply(i, to, full)), Service.Deliver(i, to, full);
    assert Service.Enabled(s.service, step);
    TurnIsDeliver(s.service, i, NextOf(s, i), to, full);
    KvOvertaking.StepSound(s.service, step);
    ApplyPlaces(s, t, g, i, to, full);
  }

  lemma NextIsNext(s: Cluster, w: State, g: seq<Cutting>, i: nat)
    requires Joined(s, w, g) && HasNext(s, i)
    ensures var m, srv := NextOf(s, i), s.service.servers[i];
            m.index == srv.delivered + 1 <= |s.service.log| && m.command == s.service.log[srv.delivered]
  {
    hide Follows, KvOnRaft.TermLogsIn, OnRecord, KvOvertaking.Sound, WellFormed, KvCuts.CutsOk, AllPlaced, Sound;
    PlacedAt(s, g, i);
    StreamIsSeries(w, s.raft, g, i, s.service.requests);
    FollowsSound(w, s.raft, g);
    var m := NextOf(s, i);
    assert m in s.raft.servers[i].applyCh;
    RecordDecides(w, s.service.log, Delivery(i, m));
  }

  lemma TurnIsDeliver(v: Service.State, i: nat, m: ApplyMsg, to: Kv.Operation, full: bool)
    requires Service.Enabled(v, Service.Deliver(i, to, full)) && m.command.Op? && m.index >= 1
    requires m.index - 1 == v.servers[i].delivered && m.command == v.log[v.servers[i].delivered]
    ensures Turned(v, i, m, to, full) == Service.Do(v, Service.Deliver(i, to, full))
  {
    hide Service.DeliverTo;
    assert v.servers[i].(delivered := m.index - 1) == v.servers[i];
  }

  lemma ApplyPlaces(s: Cluster, t: Cluster, g: seq<Cutting>, i: nat, to: Kv.Operation, full: bool)
    requires AllPlaced(s, g) && Occurs(s, Apply(i, to, full)) && t == After(s, Apply(i, to, full))
    requires NextOf(s, i).index == s.service.servers[i].delivered + 1
    ensures Sized(t) && AllPlaced(t, g)
  {
    hide WellFormed, KvCuts.InLog;
    forall j: nat | j < |t.consumed| ensures Placed(t, j, g[j]) {
      assert Placed(s, j, g[j]);
      if j == i { KvCuts.DeliverCuts(s.service.servers[i], t.service.servers[i]); }
    }
  }

  /** A pending compaction: the peer cuts there, or ignores it; either way as the service has it. */
  lemma CutJoins(s: Cluster, w: State, g: seq<Cutting>, i: nat, index: nat) returns (w': State, g': seq<Cutting>)
    requires Joined(s, w, g) && Occurs(s, Cut(i, index))
    ensures Joined(After(s, Cut(i, index)), w', g')
  {
    hide Follows, KvOnRaft.TermLogsIn, OnRecord, KvOvertaking.Sound, AllPlaced, WellFormed, Placed, Allowed, Compact;
    var t := After(s, Cut(i, index));
    KvOvertaking.StepSound(s.service, Service.Cut(i, index));
    if index > s.service.servers[i].last {
      w', g' := MoveJoined(s, w, g, Compaction(i, index));
      RaftCompactedTheorems.AllBehind(w', t.raft, g');
      CutSizes(s.raft, i, index);
      CutPlaces(s, t, g, g', i, index);
    } else {
      w', g' := w, g;
      NoCutPlaces(s, t, g, i, index);
    }
  }

  lemma CutSizes(r: State, i: nat, index: nat)
    requires Allowed(r, Compaction(i, index))
    ensures |Make(r, Compaction(i, index)).servers| == |r.servers|
    ensures forall j: nat :: j < |r.servers| ==> Make(r, Compaction(i, index)).servers[j].applyCh == r.servers[j].applyCh
  {
  }

  lemma CutPlaces(s: Cluster, t: Cluster, g: seq<Cutting>, g': seq<Cutting>, i: nat, index: nat)
    requires AllPlaced(s, g) && Occurs(s, Cut(i, index)) && t == After(s, Cut(i, index)) && Sized(t)
    requires index > s.service.servers[i].last && CutsAfter(g, Compaction(i, index), g')
    requires |t.raft.servers| == |s.raft.servers|
    requires forall j: nat :: j < |s.raft.servers| ==> t.raft.servers[j].applyCh == s.raft.servers[j].applyCh
    ensures AllPlaced(t, g')
  {
    hide WellFormed, Allowed, Compact, KvCuts.InLog;
    forall j: nat | j < |t.consumed| ensures Placed(t, j, g'[j]) {
      assert Placed(s, j, g[j]);
      if j == i { KvCuts.CutCuts(s.service.servers[i], index, t.service.servers[i]); }
    }
  }

  lemma NoCutPlaces(s: Cluster, t: Cluster, g: seq<Cutting>, i: nat, index: nat)
    requires AllPlaced(s, g) && Occurs(s, Cut(i, index)) && t == After(s, Cut(i, index))
    requires index <= s.service.servers[i].last
    ensures Sized(t) && AllPlaced(t, g)
  {
    hide WellFormed, Allowed, Compact, KvCuts.InLog;
    forall j: nat | j < |t.consumed| ensures Placed(t, j, g[j]) {
      assert Placed(s, j, g[j]);
      if j == i { KvCuts.CutCuts(s.service.servers[i], index, t.service.servers[i]); }
    }
  }

  /** A crash: the peer's new log begins where the service's new loop expects it to. */
  lemma CrashJoins(s: Cluster, w: State, g: seq<Cutting>, i: nat) returns (w': State, g': seq<Cutting>)
    requires Joined(s, w, g) && Occurs(s, Crash(i))
    ensures Joined(After(s, Crash(i)), w', g')
  {
    hide Follows, KvOnRaft.TermLogsIn, OnRecord, KvOvertaking.Sound, AllPlaced, WellFormed, Placed, Boot, Service.Recovered;
    var t := After(s, Crash(i));
    KvOvertaking.StepSound(s.service, Service.Restart(i));
    w', g' := MoveJoined(s, w, g, Take(Restart(i)));
    RaftCompactedTheorems.AllBehind(w', t.raft, g');
    RestartSizes(s.raft, i);
    CrashPlaces(s, t, g, g', i);
  }

  lemma RestartSizes(r: State, i: nat)
    requires WellFormed(r) && Enabled(r, Restart(i))
    ensures var t := Do(r, Restart(i));
            |t.servers| == |r.servers| && t.servers[i].applyCh == []
            && forall j: nat :: j < |r.servers| && j != i ==> t.servers[j] == r.servers[j]
  {
  }

  lemma CrashPlaces(s: Cluster, t: Cluster, g: seq<Cutting>, g': seq<Cutting>, i: nat)
    requires AllPlaced(s, g) && Occurs(s, Crash(i)) && t == After(s, Crash(i)) && Sized(t)
    requires CutsAfter(g, Take(Restart(i)), g') && |t.raft.servers| == |s.raft.servers| && t.raft.servers[i].applyCh == []
    requires forall j: nat :: j < |s.raft.servers| && j != i ==> t.raft.servers[j] == s.raft.servers[j]
    ensures AllPlaced(t, g')
  {
    hide WellFormed, Boot, KvCuts.InLog, Do;
    forall j: nat | j < |t.consumed| ensures Placed(t, j, g'[j]) {
      assert Placed(s, j, g[j]);
    }
  }

  /** Clerks and handlers do not touch the peers. */
  lemma LocalJoins(s: Cluster, w: State, g: seq<Cutting>, act: Service.Step)
    requires Joined(s, w, g) && Occurs(s, Local(act))
    ensures Joined(After(s, Local(act)), w, g)
  {
    hide Follows, KvOvertaking.Sound, OnRecord, WellFormed, AllPlaced, KvOnRaft.TermLogsIn;
    var t := After(s, Local(act));
    KvOvertaking.StepSound(s.service, act);
    LocalKeeps(s.service, act);
    MoreRequests(w.h, s.service.requests, t.service.requests);
    SamePlaces(s, t, g);
  }

  lemma LocalKeeps(v: Service.State, act: Service.Step)
    requires IsLocal(act) && Service.Enabled(v, act)
    ensures var t := Service.Do(v, act);
            t.log == v.log && v.requests <= t.requests && |t.servers| == |v.servers|
            && forall j: nat :: j < |v.servers| ==> SamePlace(v.servers[j], t.servers[j])
  {
  }

  lemma MoreRequests(h: History, a: set<Kv.Operation>, b: set<Kv.Operation>)
    requires KvOnRaft.TermLogsIn(h, a) && a <= b
    ensures KvOnRaft.TermLogsIn(h, b)
  {
    forall t | t in h.termLog ensures KvOnRaft.AllIn(h.termLog[t], b) { assert KvOnRaft.AllIn(h.termLog[t], a); }
  }

  // ----- runs -----

  /** One event is none or some steps of the service. */
  lemma EventJoins(s: Cluster, w: State, g: seq<Cutting>, e: Event)
    returns (w': State, g': seq<Cutting>, states: seq<Service.State>, steps: seq<Service.Step>)
    requires Joined(s, w, g) && Occurs(s, e)
    ensures Joined(After(s, e), w', g') && Path(s.service, states, steps, After(s, e).service, InOrder(s, e))
  {
    hide Joined, After, HasNext, Allowed, Path, Enabled;
    var v, ordered := s.service, InOrder(s, e);
    w', g' := w, g;
    match e
    case Raft(step) => w', states, steps := RaftJoins(s, w, g, step, ordered);
    case Start(i, op) =>
      w' := StartJoins(s, w, g, i, op);
      states, steps := StartPath(s, i, op, ordered);
    case Apply(i, to, full) =>
      ApplyJoins(s, w, g, i, to, full);
      OneStep(v, Service.Deliver(i, to, full), ordered);
      states, steps := [v, Service.Do(v, Service.Deliver(i, to, full))], [Service.Deliver(i, to, full)];
    case Cut(i, index) =>
      w', g' := CutJoins(s, w, g, i, index);
      states, steps := CutPath(s, i, index, ordered);
    case Crash(i) =>
      w', g' := CrashJoins(s, w, g, i);
      states, steps := CrashPath(s, i, ordered);
    case Local(act) =>
      LocalJoins(s, w, g, act);
      states, steps := LocalPath(s, act);
  }

  lemma StartPath(s: Cluster, i: nat, op: Kv.Operation, ordered: bool) returns (states: seq<Service.State>, steps: seq<Service.Step>)
    requires Occurs(s, Start(i, op))
    ensures Path(s.service, states, steps, After(s, Start(i, op)).service, ordered)
  {
    NoStep(s.service, ordered);
    states, steps := [s.service], [];
  }

  lemma CutPath(s: Cluster, i: nat, index: nat, ordered: bool) returns (states: seq<Service.State>, steps: seq<Service.Step>)
    requires Occurs(s, Cut(i, index))
    ensures Path(s.service, states, steps, After(s, Cut(i, index)).service, ordered)
  {
    hide Allowed, WellFormed;
    var step := Service.Cut(i, index);
    OneStep(s.service, step, ordered);
    states, steps := [s.service, Service.Do(s.service, step)], [step];
  }

  lemma CrashPath(s: Cluster, i: nat, ordered: bool) returns (states: seq<Service.State>, steps: seq<Service.Step>)
    requires Occurs(s, Crash(i))
    ensures Path(s.service, states, steps, After(s, Crash(i)).service, ordered)
  {
    hide Enabled, WellFormed;
    var step := Service.Restart(i);
    OneStep(s.service, step, ordered);
    states, steps := [s.service, Service.Do(s.service, step)], [step];
  }

  lemma LocalPath(s: Cluster, act: Service.Step) returns (states: seq<Service.State>, steps: seq<Service.Step>)
    requires Occurs(s, Local(act))
    ensures Path(s.service, states, steps, After(s, Local(act)).service, InOrder(s, Local(act)))
  {
    hide WellFormed;
    OneStep(s.service, act, InOrder(s, Local(act)));
    states, steps := [s.service, Service.Do(s.service, act)], [act];
  }

  lemma StartsJoined(clerks: nat, servers: nat) returns (w: State, g: seq<Cutting>)
    ensures Joined(Initially(clerks, servers), w, g)
  {
    hide Sound, CutForm, MayCut;
    w := RaftSystem.Init(servers);
    g := StartsFollowed(servers);
    var s := Initially(clerks, servers);
    KvOvertaking.InitSound(clerks, servers);
    forall i: nat | i < servers ensures Placed(s, i, g[i]) {
      Behind(w, w, g, i);
      StartsUncut(w.servers[i], g[i]);
    }
  }

  lemma StartsUncut(f: Server, k: Cutting)
    requires f == Boot(None) && CutForm(f, k, f)
    ensures k.b == 0 && k.from == 0 && f.applyCh == []
  {
    FormParts(f, k, f);
  }

  lemma JoinPath(clerks: nat, servers: nat, a: seq<Service.State>, x: seq<Service.Step>, v: Service.State,
                 b: seq<Service.State>, y: seq<Service.Step>, t: Service.State, before: bool, ordered: bool)
    requires Service.Run(clerks, servers, a, x) && a[|x|] == v && Path(v, b, y, t, ordered)
    requires before ==> Service.OrderedRun(clerks, servers, a, x)
    ensures b != [] && Service.Run(clerks, servers, a + b[1..], x + y) && (a + b[1..])[|x| + |y|] == t
    ensures before && ordered ==> Service.OrderedRun(clerks, servers, a + b[1..], x + y)
  {
    hide Service.Next, Service.InOrder;
    var s, m := a + b[1..], x + y;
    forall k | 0 <= k < |m|
      ensures Service.Next(s[k], m[k], s[k + 1]) && (before && ordered ==> Service.InOrder(s[k], m[k]))
    {
      if k < |x| {
        assert Service.Next(a[k], x[k], a[k + 1]);
      } else {
        assert Service.Next(b[k - |x|], y[k - |x|], b[k - |x| + 1]);
      }
    }
  }

  /** Every run of the cluster is one of the service around a committed log, which is what the peers have
      handed over. */
  lemma {:induction false} RunJoined(clerks: nat, servers: nat, states: seq<Cluster>, events: seq<Event>)
    returns (w: State, g: seq<Cutting>, vs: seq<Service.State>, steps: seq<Service.Step>)
    requires ClusterRun(clerks, servers, states, events)
    ensures Joined(states[|events|], w, g) && Service.Run(clerks, servers, vs, steps) && vs[|steps|] == states[|events|].service
    ensures OrderedRun(clerks, servers, states, events) ==> Service.OrderedRun(clerks, servers, vs, steps)
    decreases |events|
  {
    hide Joined, Occurs, After, InOrder, Path, Service.Run, Service.OrderedRun;
    var k := |events|;
    if k == 0 {
      w, g := StartsJoined(clerks, servers);
      FirstRun(clerks, servers);
      vs, steps := [Service.Init(clerks, servers)], [];
    } else {
      w, g, vs, steps := RunJoined(clerks, servers, states[..k], events[..k - 1]);
      var e, s, t := events[k - 1], states[k - 1], states[k - 1 + 1];
      assert Occurs(s, e) && t == After(s, e);
      var more, acts;
      w, g, more, acts := EventJoins(s, w, g, e);
      var before := OrderedRun(clerks, servers, states[..k], events[..k - 1]);
      JoinPath(clerks, servers, vs, steps, s.service, more, acts, t.service, before, InOrder(s, e));
      vs, steps := vs + more[1..], steps + acts;
    }
  }

  lemma FirstRun(clerks: nat, servers: nat)
    ensures Service.OrderedRun(clerks, servers, [Service.Init(clerks, servers)], [])
    ensures Service.Run(clerks, servers, [Service.Init(clerks, servers)], [])
    ensures Initially(clerks, servers).service == Service.Init(clerks, servers)
  {
  }

  lemma RunUpTo(clerks: nat, servers: nat, states: seq<Cluster>, events: seq<Event>, k: nat)
    requires ClusterRun(clerks, servers, states, events) && k < |states|
    ensures ClusterRun(clerks, servers, states[..k + 1], events[..k])
    ensures OrderedRun(clerks, servers, states, events) ==> OrderedRun(clerks, servers, states[..k + 1], events[..k])
  {
    hide Occurs, After, InOrder;
  }

  /** The store on the compacting cluster is linearizable at every moment of every run in which no handler
      overtakes one of a call in progress, and each server's store is the replay of a prefix of the one
      log. */
  lemma Linearizable(clerks: nat, servers: nat, states: seq<Cluster>, events: seq<Event>, k: nat)
    requires OrderedRun(clerks, servers, states, events) && k < |states|
    ensures var v := states[k].service;
            (exists h :: KvLinear.Linearizes(v, h) && KvLinear.DbAfter(h) == Kv.Replay(Kv.EMPTY_STORE, v.log).db)
            && forall i :: 0 <= i < |v.servers| ==> KvInv.StoreOk(v.log, v.servers[i])
  {
    hide Joined, Occurs, After, InOrder;
    RunUpTo(clerks, servers, states, events, k);
    var w, g, vs, steps := RunJoined(clerks, servers, states[..k + 1], events[..k]);
    KvLinear.Linearizable(clerks, servers, vs, steps, |steps|);
  }

  /** In every run, in order or not, each loop takes from its peer the next entry of the one log, and every
      compaction still asked for can be made: its index lies in the peer's log. */
  lemma LoopsFollowLog(clerks: nat, servers: nat, states: seq<Cluster>, events: seq<Event>, k: nat, i: nat)
    requires ClusterRun(clerks, servers, states, events) && k < |states|
    ensures i < |states[k].consumed| && i < |states[k].raft.servers| && states[k].consumed[i] < |states[k].raft.servers[i].applyCh| ==>
              HasNext(states[k], i)
    ensures HasNext(states[k], i) ==>
              var s := states[k]; var m, srv := NextOf(s, i), s.service.servers[i];
              m.index == srv.delivered + 1 <= |s.service.log| && m.command == s.service.log[srv.delivered]
    ensures forall index: nat :: Service.Enabled(states[k].service, Service.Cut(i, index)) ==> Occurs(states[k], Cut(i, index))
  {
    hide Joined, Occurs, After, HasNext, Service.Enabled, Follows, NextOf;
    RunUpTo(clerks, servers, states, events, k);
    var w, g, vs, steps := RunJoined(clerks, servers, states[..k + 1], events[..k]);
    var s := states[k];
    NextIsCommand(s, w, g, i);
    if HasNext(s, i) { NextIsNext(s, w, g, i); }
    forall index: nat | Service.Enabled(s.service, Service.Cut(i, index)) ensures Occurs(s, Cut(i, index)) {
      CutOccurs(s, w, g, i, index);
    }
  }

  /** Every message holds an operation of the service. */
  lemma NextIsCommand(s: Cluster, w: State, g: seq<Cutting>, i: nat)
    requires Joined(s, w, g)
    ensures i < |s.consumed| && i < |s.raft.servers| && s.consumed[i] < |s.raft.servers[i].applyCh| ==> HasNext(s, i)
  {
    hide Follows, KvOvertaking.Sound, OnRecord, KvOnRaft.TermLogsIn, AllPlaced;
    if i < |s.consumed| && s.consumed[i] < |s.raft.servers[i].applyCh| {
      StreamIsSeries(w, s.raft, g, i, s.service.requests);
    }
  }

  lemma CutOccurs(s: Cluster, w: State, g: seq<Cutting>, i: nat, index: nat)
    requires Joined(s, w, g) && Service.Enabled(s.service, Service.Cut(i, index))
    ensures Occurs(s, Cut(i, index))
  {
    hide Follows, KvOvertaking.Sound, OnRecord, KvOnRaft.TermLogsIn, Inv, Sound, CutForm, MayCut, Contiguous;
    PlacedAt(s, g, i);
    Behind(w, s.raft, g, i);
    var srv := s.service.servers[i];
    assert KvCuts.InLog(srv, index);
    CommitIndexInLog(w, i);
    RaftCompactedTheorems.HandedOver(w.servers[i], g[i], s.raft.servers[i]);
    LastInLog(w.servers[i], g[i], s.raft.servers[i]);
  }

  lemma LastInLog(f: Server, k: Cutting, x: Server)
    requires CutForm(f, k, x) && f.lastApplied == f.commitIndex
    ensures x.log != [] && LastIndex(x.log) >= x.lastApplied == x.commitIndex
  {
    Looks(f, k.from, k.b);
    ReadsAgree(f.log, k.b, 0);
  }
}
