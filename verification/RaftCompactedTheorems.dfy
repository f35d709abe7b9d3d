/** What every run of a cluster satisfies whose servers compact their logs and restart from them, for as
    long as no leader sends a snapshot. */
module RaftCompactedTheorems {
  import opened RaftServer
  import opened RaftCore
  import opened RaftReconcile
  import opened RaftSystem
  import opened RaftSafety
  import opened RaftTheorems
  import opened RaftCompaction
  import opened RaftCompactionRuns
  import opened RaftCompacted
  import opened RaftCompactedRuns
  import opened RaftCutForm
  import opened RaftFollowed

  // ----- the whole run behind it -----

  /** The whole run passes through an uncut form of each state of the cluster, in their order. */
  ghost predicate FollowedBy(states: seq<State>, whole: seq<State>, at: seq<nat>, cuts: seq<seq<Cutting>>) {
    |at| == |cuts| == |states|
    && (forall k :: 0 <= k < |states| ==> at[k] < |whole| && Follows(whole[at[k]], states[k], cuts[k]))
    && forall j, k :: 0 <= j <= k < |at| ==> at[j] <= at[k]
  }

  lemma JoinRuns(n: nat, a: seq<State>, x: seq<Whole>, b: seq<State>, y: seq<Whole>)
    requires WholeRun(n, a, x) && Chain(b, y) && a[|x|] == b[0]
    ensures WholeRun(n, a + b[1..], x + y) && (a + b[1..])[|x| + |y|] == b[|y|]
  {
    hide WholeNext;
    var s, m := a + b[1..], x + y;
    forall k | 0 <= k < |m| ensures WholeNext(s[k], m[k], s[k + 1]) {
      if k < |x| {
        assert WholeNext(a[k], x[k], a[k + 1]);
      } else {
        assert WholeNext(b[k - |x|], y[k - |x|], b[k - |x| + 1]);
      }
    }
  }

  lemma OneMoreFollowed(states: seq<State>, whole: seq<State>, at: seq<nat>, cuts: seq<seq<Cutting>>,
                        c: State, longer: seq<State>, i: nat, g: seq<Cutting>)
    requires FollowedBy(states, whole, at, cuts) && whole <= longer && i < |longer| && Follows(longer[i], c, g)
    requires forall k :: 0 <= k < |at| ==> at[k] <= i
    ensures FollowedBy(states + [c], longer, at + [i], cuts + [g])
  {
    hide Follows;
  }

  /** For every run of servers that compact and restart there is a run of whole logs of which each state
      of the first is the cut view. */
  lemma {:induction false} WholeRunBehind(n: nat, states: seq<State>, moves: seq<Move>)
    returns (whole: seq<State>, taken: seq<Whole>, at: seq<nat>, cuts: seq<seq<Cutting>>)
    requires CompactingRun(n, states, moves)
    ensures WholeRun(n, whole, taken) && FollowedBy(states, whole, at, cuts)
    ensures at[|at| - 1] == |whole| - 1
    decreases |moves|
  {
    hide Follows, WholeNext, Allowed, Make;
    var k := |moves|;
    if k == 0 {
      var g := StartsFollowed(n);
      assert states == [Init(n)];
      whole, taken, at, cuts := [Init(n)], [], [0], [g];
    } else {
      whole, taken, at, cuts := WholeRunBehind(n, states[..k], moves[..k - 1]);
      var last := |whole| - 1;
      assert Follows(whole[at[k - 1]], states[k - 1], cuts[k - 1]);
      var more, steps, g := MoveFollows(whole[last], states[k - 1], cuts[k - 1], moves[k - 1]);
      JoinRuns(n, whole, taken, more, steps);
      OneMoreFollowed(states[..k], whole, at, cuts, states[k], whole + more[1..], last + |steps|, g);
      assert states[..k] + [states[k]] == states;
      whole, taken, at, cuts := whole + more[1..], taken + steps, at + [last + |steps|], cuts + [g];
    }
  }

  // ----- safety -----

  /** State Machine Safety: no two servers, in any incarnation, ever hand different commands to the service
      at one index. */
  lemma StateMachineSafety(n: nat, states: seq<State>, moves: seq<Move>, a: nat, b: nat, x: Delivery, y: Delivery)
    requires CompactingRun(n, states, moves) && a < |states| && b < |states|
    requires x in states[a].delivered && y in states[b].delivered && x.msg.index == y.msg.index
    ensures x.msg.command == y.msg.command
  {
    hide Advances, CompactingRun, WholeRun;
    var whole, taken, at, cuts := WholeRunBehind(n, states, moves);
    var last := |whole| - 1;
    InLast(n, whole, taken, at[a], states[a], cuts[a], x);
    InLast(n, whole, taken, at[b], states[b], cuts[b], y);
    WholeRunSound(n, whole, taken, last, last);
    DeliveredAgree(whole[last], x, y);
  }

  lemma InLast(n: nat, whole: seq<State>, taken: seq<Whole>, k: nat, c: State, g: seq<Cutting>, x: Delivery)
    requires WholeRun(n, whole, taken) && k < |whole| && Follows(whole[k], c, g) && x in c.delivered
    ensures x in whole[|whole| - 1].delivered
  {
    hide WholeRun, Sound;
    WholeRunSound(n, whole, taken, k, |whole| - 1);
  }

  lemma DeliveredAgree(s: State, x: Delivery, y: Delivery)
    requires Sound(s) && x in s.delivered && y in s.delivered && x.msg.index == y.msg.index
    ensures x.msg.command == y.msg.command
  {
    hide CoreInv, ServersOk, NetOk, EpochsOk, DeliveryOk;
    DeliveriesAgree(CoreOf(s), x.msg, y.msg);
  }

  /** Two servers that are ever leaders of one term are one server. */
  lemma OneLeaderPerTerm(n: nat, states: seq<State>, moves: seq<Move>, a: nat, b: nat, i: nat, j: nat)
    requires CompactingRun(n, states, moves) && a <= b < |states| && i < |states[a].servers| && j < |states[b].servers|
    requires states[a].servers[i].role == Leader && states[b].servers[j].role == Leader
    requires states[a].servers[i].currentTerm == states[b].servers[j].currentTerm
    ensures i == j
  {
    hide Advances, CompactingRun, WholeRun, Follows, Sound, CutForm, MayCut;
    var whole, taken, at, cuts := WholeRunBehind(n, states, moves);
    Behind(whole[at[a]], states[a], cuts[a], i);
    Behind(whole[at[b]], states[b], cuts[b], j);
    WholeRunSound(n, whole, taken, at[a], at[b]);
    SameLeader(whole[at[a]], whole[at[b]], i, j);
  }

  lemma SameLeader(s: State, t: State, i: nat, j: nat)
    requires Inv(s) && Inv(t) && Advances(s, t) && i < |s.servers| && j < |t.servers|
    requires s.servers[i].role == Leader && t.servers[j].role == Leader
    requires s.servers[i].currentTerm == t.servers[j].currentTerm
    ensures i == j
  {
    hide CoreInv, ServersOk, NetOk, DeliveredOk;
    Member(s, i);
    Member(t, j);
  }

  // ----- what each incarnation hands over -----

  /** Consecutive entries, from the one its log began at when it was started, or from 1, on to its
      commitIndex; with no gap and no repeat. */
  lemma AppliesInOrder(n: nat, states: seq<State>, moves: seq<Move>, a: nat, i: nat) returns (first: nat)
    requires CompactingRun(n, states, moves) && a < |states| && i < |states[a].servers|
    ensures var srv := states[a].servers[i];
            |srv.applyCh| == (if first <= srv.commitIndex then srv.commitIndex + 1 - first else 0)
            && forall k :: 0 <= k < |srv.applyCh| ==> srv.applyCh[k].index == first + k
    ensures states[a].servers[i].log != [] && 1 <= first && (first == 1 || first <= states[a].servers[i].log[0].index)
  {
    hide Advances, CompactingRun, WholeRun, Follows, Sound, MayCut;
    var whole, taken, at, cuts := WholeRunBehind(n, states, moves);
    var w, g := whole[at[a]], cuts[a];
    Behind(w, states[a], g, i);
    CommitIndexInLog(w, i);
    first := Later(g[i].from, 1);
    HandedOver(w.servers[i], g[i], states[a].servers[i]);
  }

  lemma HandedOver(f: Server, k: Cutting, x: Server)
    requires CutForm(f, k, x) && f.lastApplied == f.commitIndex
    ensures x.commitIndex == f.commitIndex && x.log != [] && x.log[0].index == k.b
    ensures var first := Later(k.from, 1);
            |x.applyCh| == (if first <= x.commitIndex then x.commitIndex + 1 - first else 0)
            && forall j :: 0 <= j < |x.applyCh| ==> x.applyCh[j].index == first + j
    ensures k.from <= k.b
  {
    hide Uncompacted;
    Looks(f, k.from, k.b);
    CutThere(f.log, k.b, k.b);
    MessagesExact(f.log, Later(k.from, 1), f.lastApplied + 1);
  }

  // ----- nothing panics -----

  /** In every state every AppendEntries in the network can be served, every server restarted, and every
      index that lies between a log's start and what its server has applied can be compacted at: no log
      is ever truncated away, and no slice of one is out of range. */
  lemma NothingIsBlocked(n: nat, states: seq<State>, moves: seq<Move>, a: nat, rpc: Rpc, room: bool, i: nat, index: nat)
    requires CompactingRun(n, states, moves) && a < |states| && i < |states[a].servers|
    ensures WellFormed(states[a]) && Enabled(states[a], Restart(i))
    ensures rpc.AppendRpc? && Request(rpc) in states[a].net ==> Enabled(states[a], ServeAppend(rpc, room))
    ensures var srv := states[a].servers[i];
            0 < index && srv.log[0].index <= index <= srv.lastApplied ==> Allowed(states[a], Compaction(i, index))
  {
    hide Advances, CompactingRun, WholeRun, Follows, Sound, MayCut, CutForm, Inv, Servable;
    var whole, taken, at, cuts := WholeRunBehind(n, states, moves);
    var w, c, g := whole[at[a]], states[a], cuts[a];
    AllBehind(w, c, g);
    Behind(w, c, g, i);
    RestartsCut(w, i, g[i], c.servers[i]);
    if rpc.AppendRpc? && Request(rpc) in c.net {
      Arrived(w, c, g, Request(rpc));
      RequestInside(w, rpc);
      ServesCut(w, c, g, rpc);
    }
  }

  lemma AllBehind(w: State, c: State, g: seq<Cutting>)
    requires Follows(w, c, g)
    ensures WellFormed(c) && |w.servers| == |c.servers|
  {
    hide Follows, Inv, Sound, MayCut, CutForm, Contiguous;
    SameSize(w, c, g);
    forall i | 0 <= i < |c.servers| ensures Contiguous(c.servers[i].log) { Behind(w, c, g, i); }
  }

  lemma SameSize(w: State, c: State, g: seq<Cutting>)
    requires Follows(w, c, g)
    ensures |c.epochs| == |c.servers| == |w.servers|
  {
  }

  lemma RestartsCut(w: State, i: nat, k: Cutting, x: Server)
    requires Inv(w) && i < |w.servers| && CutForm(w.servers[i], k, x)
    ensures x.log != [] && x.lastApplied <= LastIndex(x.log) && match x.disk case None => true case Some(d) => Contiguous(d.log)
  {
    hide Inv;
    InGoodOrder(w, i);
    Looks(w.servers[i], k.from, k.b);
    ReadsAgree(w.servers[i].log, k.b, 0);
  }

  lemma RequestInside(w: State, rpc: Rpc)
    requires Inv(w) && Request(rpc) in w.net
    ensures rpc.dst < |w.servers|
  {
    hide CoreInv, ServersOk, DeliveredOk;
    MessageInNet(w, Request(rpc));
  }

  lemma ServesCut(w: State, c: State, g: seq<Cutting>, rpc: Rpc)
    requires Follows(w, c, g) && rpc.AppendRpc? && Request(rpc) in w.net && rpc.dst < |c.servers|
    ensures Contiguous(c.servers[rpc.dst].log) && Servable(c.servers[rpc.dst], rpc.append)
  {
    hide Follows, Sound, Inv, CutForm, MayCut, Contiguous, Fits;
    var v := rpc.dst;
    Behind(w, c, g, v);
    MayKept(w, v, g[v]);
    if rpc.append.term >= w.servers[v].currentTerm { FitsInState(w, rpc, g[v].b); }
    ServableForm(w.servers[v], g[v], c.servers[v], rpc.append);
  }

  lemma ServableForm(f: Server, k: Cutting, x: Server, args: AppendArgs)
    requires CutForm(f, k, x) && Contiguous(f.log) && Contiguous(x.log) && (args.term >= f.currentTerm ==> Fits(f, args, k.b))
    ensures Servable(x, args)
  {
    hide Fits, AppendArgsOk, Contiguous;
    Looks(f, k.from, k.b);
    FitsCut(f, k.from, k.b, args);
  }
}
