/** The simulated network and the discipline of shutting a server down: no caller is told that its call
    succeeded unless what the handler persisted is in the storage the next incarnation gets. */
module LabRpc {
  import opened Commands

  // ----- the network's tables -----

  datatype Tables = Tables(enabled: set<nat>, connections: map<nat, nat>, servers: map<nat, Option<nat>>)

  function ServerAt(t: Tables, name: nat): Option<nat> {
    if name in t.servers then t.servers[name] else None
  }

  predicate IsDead(t: Tables, end: nat, name: nat, server: nat) {
    end !in t.enabled || ServerAt(t, name) != Some(server)
  }

  /** The server an end point reaches now, if any. */
  function Reached(t: Tables, end: nat): Option<nat> {
    if end in t.enabled && end in t.connections then ServerAt(t, t.connections[end]) else None
  }

  class Network {
    var enabled: set<nat>
    var connections: map<nat, nat>
    var servers: map<nat, Option<nat>>

    ghost function Abs(): Tables
      reads this
    {
      Tables(enabled, connections, servers)
    }

    constructor MakeNetwork()
      ensures Abs() == Tables({}, map[], map[])
      ensures enabled == {} && connections == map[] && servers == map[]
    {
      enabled, connections, servers := {}, map[], map[];
    }

    method ReadEndnameInfo(end: nat) returns (up: bool, name: Option<nat>, server: Option<nat>)
      ensures up == (end in enabled) && name == (if end in connections then Some(connections[end]) else None)
      ensures up && name.Some? && server.Some? <==> Reached(Abs(), end).Some?
      ensures Reached(Abs(), end).Some? ==> server == Reached(Abs(), end)
      ensures server == if end in connections && connections[end] in servers then servers[connections[end]] else None
    {
      up := end in enabled;
      name, server := None, None;
      if end in connections {
        name := Some(connections[end]);
        if connections[end] in servers { server := servers[connections[end]]; }
      }
    }

    method IsServerDead(end: nat, name: nat, server: nat) returns (dead: bool)
      ensures dead == IsDead(Abs(), end, name, server)
      ensures !dead <==> end in enabled && name in servers && servers[name] == Some(server)
    {
      if end !in enabled || name !in servers || servers[name] != Some(server) { return true; }
      return false;
    }

    method AddServer(name: nat, server: nat)
      modifies this`servers
      ensures Abs() == old(Abs()).(servers := old(servers)[name := Some(server)])
      ensures servers == old(servers)[name := Some(server)]
    {
      servers := servers[name := Some(server)];
    }

    method DeleteServer(name: nat)
      modifies this`servers
      ensures Abs() == old(Abs()).(servers := old(servers)[name := None])
      ensures servers == old(servers)[name := None]
    {
      servers := servers[name := None];
    }

    method Connect(end: nat, name: nat)
      modifies this`connections
      ensures Abs() == old(Abs()).(connections := old(connections)[end := name])
      ensures connections == old(connections)[end := name]
    {
      connections := connections[end := name];
    }

    method Enable(end: nat, on: bool)
      modifies this`enabled
      ensures Abs() == old(Abs()).(enabled := if on then old(enabled) + {end} else old(enabled) - {end})
      ensures forall e: nat :: e in enabled <==> if e == end then on else e in old(enabled)
    {
      if on { enabled := enabled + {end}; } else { enabled := enabled - {end}; }
    }
  }

  // ----- calls in progress -----

  /** How far ProcessReq and the handler of a call have come. */
  datatype Stage =
    | Running      // the handler runs
    | Persisted    // it has saved its effect
    | Finished     // it has returned, and ProcessReq has its reply
    | Passed       // the final IsServerDead has said no
    | Succeeded    // Call has returned true
    | Failed       // Call has returned false

  datatype Call = Call(end: nat, name: nat, server: nat, stage: Stage)

  /** Where the tester is in taking server `name` down and up again. */
  datatype Phase = Up | Deleted | Copied | Starting(server: nat)

  datatype State = State(
    tables: Tables,
    calls: seq<Call>,
    persisters: seq<set<nat>>,    // by persister, the calls whose effects are in it
    persisterOf: seq<nat>,        // by server object, the persister it was started with
    saved: seq<nat>,              // cfg.saved: by name, the persister for the next incarnation
    phase: seq<Phase>)

  datatype Step =
    | Connect(end: nat, name: nat)
    | Enable(end: nat, on: bool)
    | Begin(end: nat)             // ProcessReq looks the server up
    | Persist(c: nat)
    | Finish(c: nat)
    | GiveUp(c: nat)              // the periodic check finds the server dead
    | Check(c: nat)               // the final check
    | Reply(c: nat, dropped: bool)
    | Delete(i: nat)              // DeleteServer
    | Copy(i: nat)                // saved[i].Copy() at shutdown
    | Start(i: nat)               // saved[i].Copy() at start, and the new incarnation
    | Add(i: nat)                 // AddServer
    | CopyEarly(i: nat)           // a copy made while the server is still reachable

  function Init(n: nat): State {
    State(Tables({}, map[], map[]), [], seq(n, i => {}), [], seq(n, i requires 0 <= i < n => i), seq(n, i => Copied))
  }

  predicate At(s: State, c: nat, stage: Stage) {
    c < |s.calls| && s.calls[c].stage == stage
  }

  predicate Dead(s: State, c: nat)
    requires c < |s.calls|
  {
    IsDead(s.tables, s.calls[c].end, s.calls[c].name, s.calls[c].server)
  }

  predicate InPhase(s: State, i: nat, p: Phase) {
    i < |s.phase| && s.phase[i] == p
  }

  /** `early` allows the order that the tester takes care to avoid. */
  predicate Enabled(s: State, step: Step, early: bool) {
    match step
    case Connect(end, name) => end !in s.tables.connections && name < |s.phase|
    case Enable(_, _) => true
    case Begin(_) => true
    case Persist(c) => At(s, c, Running) && s.calls[c].server < |s.persisterOf| && s.persisterOf[s.calls[c].server] < |s.persisters|
    case Finish(c) => At(s, c, Persisted)
    case GiveUp(c) => (At(s, c, Running) || At(s, c, Persisted)) && Dead(s, c)
    case Check(c) => At(s, c, Finished)
    case Reply(c, _) => At(s, c, Passed)
    case Delete(i) => InPhase(s, i, Up)
    case Copy(i) => InPhase(s, i, Deleted) && i < |s.saved| && s.saved[i] < |s.persisters|
    case Start(i) => InPhase(s, i, Copied) && i < |s.saved| && s.saved[i] < |s.persisters|
    case Add(i) => i < |s.phase| && s.phase[i].Starting?
    case CopyEarly(i) => early && InPhase(s, i, Up) && i < |s.saved| && s.saved[i] < |s.persisters|
  }

  function Move(s: State, c: nat, stage: Stage): State
    requires c < |s.calls|
  {
    s.(calls := s.calls[c := s.calls[c].(stage := stage)])
  }

  /** A fresh persister with the content of the saved one takes its place. */
  function CopySaved(s: State, i: nat): State
    requires i < |s.saved| && s.saved[i] < |s.persisters|
  {
    s.(persisters := s.persisters + [s.persisters[s.saved[i]]], saved := s.saved[i := |s.persisters|])
  }

  function SetServer(s: State, i: nat, server: Option<nat>, p: Phase): State
    requires i < |s.phase|
  {
    s.(tables := s.tables.(servers := s.tables.servers[i := server]), phase := s.phase[i := p])
  }

  function Do(s: State, step: Step, early: bool): State
    requires Enabled(s, step, early)
  {
    match step
    case Connect(end, name) => s.(tables := s.tables.(connections := s.tables.connections[end := name]))
    case Enable(end, on) =>
      s.(tables := s.tables.(enabled := if on then s.tables.enabled + {end} else s.tables.enabled - {end}))
    case Begin(end) =>
      (match Reached(s.tables, end)
       case Some(server) => s.(calls := s.calls + [Call(end, s.tables.connections[end], server, Running)])
       case None => s.(calls := s.calls + [Call(end, 0, 0, Failed)]))
    case Persist(c) =>
      var p := s.persisterOf[s.calls[c].server];
      Move(s, c, Persisted).(persisters := s.persisters[p := s.persisters[p] + {c}])
    case Finish(c) => Move(s, c, Finished)
    case GiveUp(c) => Move(s, c, Failed)
    case Check(c) => Move(s, c, if Dead(s, c) then Failed else Passed)
    case Reply(c, dropped) => Move(s, c, if dropped then Failed else Succeeded)
    case Delete(i) => SetServer(s, i, None, Deleted)
    case Copy(i) => CopySaved(s, i).(phase := s.phase[i := Copied])
    case Start(i) =>
      CopySaved(s, i).(persisterOf := s.persisterOf + [|s.persisters|], phase := s.phase[i := Starting(|s.persisterOf|)])
    case Add(i) => SetServer(s, i, Some(s.phase[i].server), Up)
    case CopyEarly(i) => CopySaved(s, i)
  }

  ghost predicate Run(n: nat, states: seq<State>, steps: seq<Step>) {
    |states| == |steps| + 1 && states[0] == Init(n)
    && forall k :: 0 <= k < |steps| ==> Enabled(states[k], steps[k], false) && states[k + 1] == Do(states[k], steps[k], false)
  }

  // ----- what is kept -----

  ghost predicate Acknowledged(s: State, c: nat) {
    At(s, c, Passed) || At(s, c, Succeeded)
  }

  /** Server o, current or about to be, saves into what the next incarnation will get. */
  ghost predicate SavesTo(s: State, o: nat, i: nat) {
    o < |s.persisterOf| && i < |s.saved| && s.persisterOf[o] == s.saved[i]
  }

  ghost predicate CallOk(s: State, c: nat)
    requires c < |s.calls|
  {
    var call := s.calls[c];
    (call.stage != Failed ==> call.server < |s.persisterOf| && s.persisterOf[call.server] < |s.persisters| && call.name < |s.saved|)
    && (call.stage == Persisted || call.stage == Finished ==> c in s.persisters[s.persisterOf[call.server]])
    && (call.stage == Passed || call.stage == Succeeded ==>
          s.saved[call.name] < |s.persisters| && c in s.persisters[s.saved[call.name]])
  }

  ghost predicate Inv(s: State) {
    |s.saved| == |s.phase|
    && (forall i: nat :: i < |s.saved| ==> s.saved[i] < |s.persisters|)
    && (forall c: nat :: c < |s.calls| ==> CallOk(s, c))
    && (forall i: nat :: i < |s.phase| && s.phase[i].Starting? ==> SavesTo(s, s.phase[i].server, i))
    && (forall i: nat :: i < |s.phase| && ServerAt(s.tables, i).Some? ==> s.phase[i] == Up && SavesTo(s, ServerAt(s.tables, i).value, i))
    && (forall i: nat :: ServerAt(s.tables, i).Some? ==> i < |s.phase|)
  }

  lemma InitOk(n: nat)
    ensures Inv(Init(n))
  {
  }

  /** The rest of the state, when only tables, calls and phases change. */
  lemma SameStores(s: State, t: State, c: nat)
    requires c < |s.calls| && c < |t.calls| && t.calls[c] == s.calls[c] && CallOk(s, c)
    requires t.persisters == s.persisters && t.persisterOf == s.persisterOf && t.saved == s.saved
    ensures CallOk(t, c)
  {
  }

  lemma PersistKeeps(s: State, c: nat)
    requires Inv(s) && Enabled(s, Persist(c), false)
    ensures Inv(Do(s, Persist(c), false))
  {
    var t := Do(s, Persist(c), false);
    forall d: nat | d < |t.calls| ensures CallOk(t, d) {
      assert CallOk(s, d);
    }
  }

  lemma CopySavedKeeps(s: State, i: nat, d: nat)
    requires i < |s.saved| && s.saved[i] < |s.persisters| && d < |s.calls| && CallOk(s, d)
    ensures CallOk(CopySaved(s, i), d)
  {
  }

  lemma CopyKeeps(s: State, i: nat)
    requires Inv(s) && Enabled(s, Copy(i), false)
    ensures Inv(Do(s, Copy(i), false))
  {
    var t := Do(s, Copy(i), false);
    forall d: nat | d < |t.calls| ensures CallOk(t, d) {
      CopySavedKeeps(s, i, d);
    }
    forall j: nat | j < |t.phase| && ServerAt(t.tables, j).Some? ensures SavesTo(t, ServerAt(t.tables, j).value, j) {
      assert SavesTo(s, ServerAt(s.tables, j).value, j);
    }
    forall j: nat | j < |t.phase| && t.phase[j].Starting? ensures SavesTo(t, t.phase[j].server, j) {
      assert SavesTo(s, s.phase[j].server, j);
    }
  }

  lemma StartKeeps(s: State, i: nat)
    requires Inv(s) && Enabled(s, Start(i), false)
    ensures Inv(Do(s, Start(i), false))
  {
    var t := Do(s, Start(i), false);
    forall d: nat | d < |t.calls| ensures CallOk(t, d) {
      CopySavedKeeps(s, i, d);
    }
    forall j: nat | j < |t.phase| && ServerAt(t.tables, j).Some? ensures SavesTo(t, ServerAt(t.tables, j).value, j) {
      assert SavesTo(s, ServerAt(s.tables, j).value, j);
    }
    forall j: nat | j < |t.phase| && t.phase[j].Starting? ensures SavesTo(t, t.phase[j].server, j) {
      if j != i { assert SavesTo(s, s.phase[j].server, j); }
    }
  }

  lemma MoveKeeps(s: State, c: nat, stage: Stage)
    requires Inv(s) && c < |s.calls|
    requires CallOk(Move(s, c, stage), c)
    ensures Inv(Move(s, c, stage))
  {
    var t := Move(s, c, stage);
    forall d: nat | d < |t.calls| ensures CallOk(t, d) {
      if d != c { SameStores(s, t, d); }
    }
  }

  /** The final check passes only on the current incarnation, which saves where it should. */
  lemma CheckKeeps(s: State, c: nat)
    requires Inv(s) && Enabled(s, Check(c), false)
    ensures Inv(Do(s, Check(c), false))
  {
    assert CallOk(s, c);
    if !Dead(s, c) {
      assert SavesTo(s, s.calls[c].server, s.calls[c].name);
    }
    MoveKeeps(s, c, if Dead(s, c) then Failed else Passed);
  }

  lemma TablesKeep(s: State, tables: Tables)
    requires Inv(s) && tables.servers == s.tables.servers
    ensures Inv(s.(tables := tables))
  {
    var t := s.(tables := tables);
    forall c: nat | c < |t.calls| ensures CallOk(t, c) { SameStores(s, t, c); }
    assert forall i: nat :: ServerAt(t.tables, i) == ServerAt(s.tables, i);
  }

  lemma BeginKeeps(s: State, end: nat)
    requires Inv(s)
    ensures Inv(Do(s, Begin(end), false))
  {
    var t := Do(s, Begin(end), false);
    forall c: nat | c < |t.calls| ensures CallOk(t, c) {
      if c < |s.calls| {
        SameStores(s, t, c);
      } else if Reached(s.tables, end).Some? {
        var i := s.tables.connections[end];
        assert ServerAt(s.tables, i).Some?;
        assert SavesTo(s, ServerAt(s.tables, i).value, i);
      }
    }
  }

  lemma SetServerKeeps(s: State, i: nat, server: Option<nat>, p: Phase)
    requires Inv(s) && i < |s.phase|
    requires if server.Some? then p == Up && SavesTo(s, server.value, i) else p == Deleted
    ensures Inv(SetServer(s, i, server, p))
  {
    var t := SetServer(s, i, server, p);
    forall c: nat | c < |t.calls| ensures CallOk(t, c) { SameStores(s, t, c); }
    forall j: nat | j < |t.phase| && ServerAt(t.tables, j).Some? ensures t.phase[j] == Up && SavesTo(t, ServerAt(t.tables, j).value, j) {
      if j != i { assert SavesTo(s, ServerAt(s.tables, j).value, j); }
    }
    forall j: nat | j < |t.phase| && t.phase[j].Starting? ensures SavesTo(t, t.phase[j].server, j) {
      assert SavesTo(s, s.phase[j].server, j);
    }
    forall j: nat | ServerAt(t.tables, j).Some? ensures j < |t.phase| {
      if j != i { assert ServerAt(s.tables, j).Some?; }
    }
  }

  lemma StepKeeps(s: State, step: Step)
    requires Inv(s) && Enabled(s, step, false)
    ensures Inv(Do(s, step, false))
  {
    hide Inv;
    match step
    case Connect(_, _) => TablesKeep(s, Do(s, step, false).tables);
    case Enable(_, _) => TablesKeep(s, Do(s, step, false).tables);
    case Begin(end) => BeginKeeps(s, end);
    case Persist(c) => PersistKeeps(s, c);
    case Finish(c) => CallsOk(s, c); MoveKeeps(s, c, Finished);
    case GiveUp(c) => CallsOk(s, c); MoveKeeps(s, c, Failed);
    case Check(c) => CheckKeeps(s, c);
    case Reply(c, dropped) => CallsOk(s, c); MoveKeeps(s, c, if dropped then Failed else Succeeded);
    case Delete(i) => SetServerKeeps(s, i, None, Deleted);
    case Copy(i) => CopyKeeps(s, i);
    case Start(i) => StartKeeps(s, i);
    case Add(i) => StartingSaves(s, i); SetServerKeeps(s, i, Some(s.phase[i].server), Up);
    case CopyEarly(_) => assert false;
  }

  lemma CallsOk(s: State, c: nat)
    requires Inv(s) && c < |s.calls|
    ensures CallOk(s, c)
  {
  }

  lemma StartingSaves(s: State, i: nat)
    requires Inv(s) && i < |s.phase| && s.phase[i].Starting?
    ensures SavesTo(s, s.phase[i].server, i)
  {
  }

  lemma {:induction false} RunInv(n: nat, states: seq<State>, steps: seq<Step>, k: nat)
    requires Run(n, states, steps) && k < |states|
    ensures Inv(states[k])
    decreases k
  {
    hide Inv, Do, Enabled;
    if k == 0 {
      InitOk(n);
    } else {
      RunInv(n, states, steps, k - 1);
      assert Enabled(states[k - 1], steps[k - 1], false) && states[k - 1 + 1] == Do(states[k - 1], steps[k - 1], false);
      StepKeeps(states[k - 1], steps[k - 1]);
    }
  }

  /** Whatever the interleaving: once Call has returned true, what the handler persisted is in the
      persister kept for the next incarnation, and in that of every later one. */
  lemma AcknowledgedSurvives(n: nat, states: seq<State>, steps: seq<Step>, k: nat, c: nat)
    requires Run(n, states, steps) && k < |states| && Acknowledged(states[k], c)
    ensures var s := states[k]; var i := s.calls[c].name;
            i < |s.saved| && s.saved[i] < |s.persisters| && c in s.persisters[s.saved[i]]
            && (forall o: nat :: InPhase(s, i, Starting(o)) || ServerAt(s.tables, i) == Some(o) ==>
                  o < |s.persisterOf| && s.persisterOf[o] < |s.persisters| && c in s.persisters[s.persisterOf[o]])
  {
    RunInv(n, states, steps, k);
    assert CallOk(states[k], c);
  }

  function CallSteps(end: nat, c: nat): seq<Step> {
    [Begin(end), Persist(c), Finish(c), Check(c), Reply(c, false)]
  }

  ghost predicate Next(s: State, step: Step, t: State) {
    Enabled(s, step, false) && t == Do(s, step, false)
  }

  /** And calls do get through: one by an end that is enabled and connected to a running server succeeds,
      unless something is taken down meanwhile, and leaves its effect. */
  lemma CallSucceeds(s: State, end: nat) returns (states: seq<State>)
    requires Inv(s) && end in s.tables.enabled && end in s.tables.connections
    requires var name := s.tables.connections[end]; name in s.tables.servers && s.tables.servers[name].Some?
    ensures |states| == 6 && states[0] == s
    ensures forall k :: 0 <= k < 5 ==> Next(states[k], CallSteps(end, |s.calls|)[k], states[k + 1])
    ensures var i, t, c := s.tables.connections[end], states[5], |s.calls|;
            At(t, c, Succeeded) && i < |t.saved| && t.saved[i] < |t.persisters| && c in t.persisters[t.saved[i]]
  {
    hide Inv;
    var c := |s.calls|;
    var s1 := Do(s, Begin(end), false);
    BeginsThere(s, end);
    var s2 := Do(s1, Persist(c), false);
    var s3 := Do(s2, Finish(c), false);
    var s4 := Do(s3, Check(c), false);
    states := [s, s1, s2, s3, s4, Do(s4, Reply(c, false), false)];
  }

  lemma BeginsThere(s: State, end: nat)
    requires Inv(s) && end in s.tables.enabled && end in s.tables.connections
    requires var name := s.tables.connections[end]; name in s.tables.servers && s.tables.servers[name].Some?
    ensures var name := s.tables.connections[end]; var server := s.tables.servers[name].value;
            Do(s, Begin(end), false) == s.(calls := s.calls + [Call(end, name, server, Running)])
            && server < |s.persisterOf| && name < |s.saved| && s.persisterOf[server] == s.saved[name] < |s.persisters|
            && !IsDead(s.tables, end, name, server)
  {
    var name := s.tables.connections[end];
    assert ServerAt(s.tables, name).Some?;
    assert SavesTo(s, s.tables.servers[name].value, name);
  }

  /** Were the copy made before DeleteServer, any call then in progress could be acknowledged and
      its effect still lost. */
  lemma EarlyCopyLoses(s: State, c: nat) returns (states: seq<State>)
    requires Inv(s) && At(s, c, Running) && !Dead(s, c)
    requires forall p :: 0 <= p < |s.persisters| ==> c !in s.persisters[p]
    ensures |states| == 6 && states[0] == s
    ensures forall k :: 0 <= k < 5 ==> EarlyNext(states[k], EarlySteps(c, s.calls[c].name)[k], states[k + 1])
    ensures var i, t := s.calls[c].name, states[5];
            At(t, c, Succeeded) && i < |t.saved| && t.saved[i] < |t.persisters| && c !in t.persisters[t.saved[i]]
  {
    hide Inv;
    var i := s.calls[c].name;
    var s1, s2 := CopyThenPersist(s, c);
    var s3 := Do(s2, Finish(c), true);
    var s4 := Do(s3, Check(c), true);
    states := [s, s1, s2, s3, s4, Do(s4, Reply(c, false), true)];
  }

  lemma CopyThenPersist(s: State, c: nat) returns (s1: State, s2: State)
    requires Inv(s) && At(s, c, Running) && !Dead(s, c)
    requires forall p :: 0 <= p < |s.persisters| ==> c !in s.persisters[p]
    ensures var i := s.calls[c].name;
            EarlyNext(s, CopyEarly(i), s1) && EarlyNext(s1, Persist(c), s2)
            && At(s2, c, Persisted) && s2.calls == s.calls[c := s.calls[c].(stage := Persisted)] && !Dead(s2, c)
            && i < |s2.saved| && s2.saved[i] < |s2.persisters| && c !in s2.persisters[s2.saved[i]]
  {
    assert CallOk(s, c);
    var i := s.calls[c].name;
    assert SavesTo(s, s.calls[c].server, i);
    s1 := Do(s, CopyEarly(i), true);
    s2 := Do(s1, Persist(c), true);
  }

  function EarlySteps(c: nat, i: nat): seq<Step> {
    [CopyEarly(i), Persist(c), Finish(c), Check(c), Reply(c, false)]
  }

  ghost predicate EarlyNext(s: State, step: Step, t: State) {
    Enabled(s, step, true) && t == Do(s, step, true)
  }
}
