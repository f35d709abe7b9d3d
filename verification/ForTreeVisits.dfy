/** What the traversal's trace says: its callbacks nest, each node is visited inside the brackets of its
    ancestors and of nothing else, and every place of the forest is visited once, in pre-order.  The
    class traverses as the implementation does and makes this trace. */
module ForTreeVisits {
  import opened Commands
  import opened ForTree
  import opened ForTreeOrder

  // ----- reading a trace as brackets -----

  datatype Open = For(v: Node, k: nat, children: nat) | Call(v: Node, k: nat)

  /** A visit: the node handed to forcurr, and the sibling indices of the for-brackets open then. */
  datatype Visit = Visit(path: seq<nat>, v: Node)

  /** How far a trace nests: the brackets still open and the visits so far, or not at all. */
  datatype Reading = Unbalanced | Reading(open: seq<Open>, visits: seq<Visit>)

  function Indices(open: seq<Open>): seq<nat> {
    if open == [] then []
    else Indices(open[..|open| - 1]) + if open[|open| - 1].For? then [open[|open| - 1].k] else []
  }

  /** Where siblings may be visited: at the top, or within their parent's call-brackets. */
  predicate BetweenSiblings(open: seq<Open>) {
    open == [] || open[|open| - 1].Call?
  }

  function Read(r: Reading, e: Event): Reading {
    if r.Unbalanced? then Unbalanced
    else
      var open := r.open;
      match e
      case ForBefore(v, k, n) => if BetweenSiblings(open) then r.(open := open + [For(v, k, n)]) else Unbalanced
      case CallBefore(v, k) =>
        if open != [] && open[|open| - 1].For? && open[|open| - 1].v == v && open[|open| - 1].children > 0
        then r.(open := open + [Call(v, k)]) else Unbalanced
      case ForCurr(v, k, n) =>
        if open != [] && open[|open| - 1] == For(v, k, n) then r.(visits := r.visits + [Visit(Indices(open), v)]) else Unbalanced
      case CallAfter(v, k) => if open != [] && open[|open| - 1] == Call(v, k) then r.(open := open[..|open| - 1]) else Unbalanced
      case ForAfter(v, k, n) => if open != [] && open[|open| - 1] == For(v, k, n) then r.(open := open[..|open| - 1]) else Unbalanced
  }

  function ReadAll(r: Reading, trace: seq<Event>): Reading
    decreases |trace|
  {
    if trace == [] then r else ReadAll(Read(r, trace[0]), trace[1..])
  }

  lemma {:induction false} ReadConcat(r: Reading, a: seq<Event>, b: seq<Event>)
    ensures ReadAll(r, a + b) == ReadAll(ReadAll(r, a), b)
    decreases |a|
  {
    if a == [] {
      assert a + b == b;
    } else {
      assert (a + b)[1..] == a[1..] + b;
      ReadConcat(Read(r, a[0]), a[1..], b);
    }
  }

  lemma ReadOne(r: Reading, e: Event)
    ensures ReadAll(r, [e]) == Read(r, e)
  {
    assert [e][1..] == [];
  }

  // ----- the places of a subforest, in pre-order -----

  /** All places from the k-th sibling at `path` on, each before the places below it. */
  function Places(f: Forest, path: seq<nat>, k: nat): seq<Visit>
    requires NoRepeats(f) && ListAt(f, path).Some? && k <= |ListAt(f, path).value|
    decreases |All(f)| - |path|, |ListAt(f, path).value| - k
  {
    DepthBound(f, path);
    var list := ListAt(f, path).value;
    if k == |list| then []
    else
      ListAtSon(f, path, k);
      DepthBound(f, path + [k]);
      [Visit(path + [k], list[k])] + Places(f, path + [k], 0) + Places(f, path, k + 1)
  }

  lemma IndicesPush(open: seq<Open>, o: Open)
    ensures Indices(open + [o]) == Indices(open) + if o.For? then [o.k] else []
  {
    assert (open + [o])[..|open|] == open;
  }

  /** The part of the trace between a node's own brackets. */
  function Body(f: Forest, path: seq<nat>, k: nat): seq<Event>
    requires NoRepeats(f) && ListAt(f, path).Some? && k < |ListAt(f, path).value|
  {
    var v := ListAt(f, path).value[k];
    ListAtSon(f, path, k);
    if |Sons(f, v)| > 0 then [CallBefore(v, k)] + Trace(f, path + [k], 0) + [CallAfter(v, k)] else []
  }

  lemma TraceUnfolds(f: Forest, path: seq<nat>, k: nat)
    requires NoRepeats(f) && ListAt(f, path).Some? && k < |ListAt(f, path).value|
    ensures var v := ListAt(f, path).value[k]; var n := |Sons(f, v)|;
            Trace(f, path, k)
            == [ForBefore(v, k, n), ForCurr(v, k, n)] + Body(f, path, k) + [ForAfter(v, k, n)] + Trace(f, path, k + 1)
  {
  }

  lemma PlacesUnfold(f: Forest, path: seq<nat>, k: nat)
    requires NoRepeats(f) && ListAt(f, path).Some? && k < |ListAt(f, path).value|
    ensures ListAt(f, path + [k]).Some? && |path| < |path + [k]| <= |All(f)|
    ensures NodeAt(f, path + [k]) == ListAt(f, path).value[k]
    ensures Places(f, path, k)
            == [Visit(path + [k], ListAt(f, path).value[k])] + Places(f, path + [k], 0) + Places(f, path, k + 1)
  {
    ListAtSon(f, path, k);
    DepthBound(f, path + [k]);
  }

  /** The trace of a subforest closes what it opens and visits its places, each with exactly its
      ancestors' brackets open around it. */
  lemma NothingLeft(f: Forest, path: seq<nat>, k: nat)
    requires NoRepeats(f) && ListAt(f, path).Some? && k == |ListAt(f, path).value|
    ensures Trace(f, path, k) == [] && Places(f, path, k) == []
  {
  }

  lemma {:induction false} TraceNests(f: Forest, path: seq<nat>, k: nat, r: Reading)
    requires NoRepeats(f) && ListAt(f, path).Some? && k <= |ListAt(f, path).value|
    requires r.Reading? && Indices(r.open) == path && BetweenSiblings(r.open)
    ensures ReadAll(r, Trace(f, path, k)) == Reading(r.open, r.visits + Places(f, path, k))
    decreases |All(f)| - |path|, |ListAt(f, path).value| - k, 1
  {
    hide NoRepeats, All, Sons, Body, Places, Trace, Indices, ListAt;
    DepthBound(f, path);
    var list := ListAt(f, path).value;
    if k < |list| {
      PlacesUnfold(f, path, k);
      TraceUnfolds(f, path, k);
      var v := list[k];
      var n := |Sons(f, v)|;
      var inside := Reading(r.open + [For(v, k, n)], r.visits + [Visit(path + [k], v)]);
      var after := Reading(r.open, inside.visits + Places(f, path + [k], 0));
      HeadReads(r, v, k, n);
      IndicesPush(r.open, For(v, k, n));
      BodyReads(f, path, k, inside);
      TailReads(r.open, after.visits, v, k, n);
      TraceNests(f, path, k + 1, after);
      ReadFour(r, [ForBefore(v, k, n), ForCurr(v, k, n)], Body(f, path, k), [ForAfter(v, k, n)], Trace(f, path, k + 1));
      assert after.visits + Places(f, path, k + 1) == r.visits + Places(f, path, k);
    } else {
      NothingLeft(f, path, k);
      assert r.visits + [] == r.visits;
    }
  }

  lemma ReadFour(r: Reading, a: seq<Event>, b: seq<Event>, c: seq<Event>, d: seq<Event>)
    ensures ReadAll(r, a + b + c + d) == ReadAll(ReadAll(ReadAll(ReadAll(r, a), b), c), d)
  {
    hide ReadAll;
    ReadConcat(r, a, b);
    ReadConcat(r, a + b, c);
    ReadConcat(r, a + b + c, d);
  }

  lemma HeadReads(r: Reading, v: Node, k: nat, n: nat)
    requires r.Reading? && BetweenSiblings(r.open)
    ensures ReadAll(r, [ForBefore(v, k, n), ForCurr(v, k, n)])
            == Reading(r.open + [For(v, k, n)], r.visits + [Visit(Indices(r.open) + [k], v)])
  {
    IndicesPush(r.open, For(v, k, n));
    assert [ForBefore(v, k, n), ForCurr(v, k, n)] == [ForBefore(v, k, n)] + [ForCurr(v, k, n)];
    ReadConcat(r, [ForBefore(v, k, n)], [ForCurr(v, k, n)]);
    ReadOne(r, ForBefore(v, k, n));
    ReadOne(Read(r, ForBefore(v, k, n)), ForCurr(v, k, n));
  }

  lemma TailReads(open: seq<Open>, visits: seq<Visit>, v: Node, k: nat, n: nat)
    ensures ReadAll(Reading(open + [For(v, k, n)], visits), [ForAfter(v, k, n)]) == Reading(open, visits)
  {
    ReadOne(Reading(open + [For(v, k, n)], visits), ForAfter(v, k, n));
  }

  lemma {:induction false} BodyReads(f: Forest, path: seq<nat>, k: nat, r: Reading)
    requires NoRepeats(f) && ListAt(f, path).Some? && k < |ListAt(f, path).value|
    requires r.Reading? && Indices(r.open) == path + [k] && r.open != []
    requires var v := ListAt(f, path).value[k]; r.open[|r.open| - 1] == For(v, k, |Sons(f, v)|)
    ensures ListAt(f, path + [k]).Some?
    ensures ReadAll(r, Body(f, path, k)) == Reading(r.open, r.visits + Places(f, path + [k], 0))
    decreases |All(f)| - |path|, |ListAt(f, path).value| - k, 0
  {
    hide NoRepeats, All, Trace, Indices;
    ListAtSon(f, path, k);
    DepthBound(f, path + [k]);
    var v := ListAt(f, path).value[k];
    if |Sons(f, v)| > 0 {
      var within := r.(open := r.open + [Call(v, k)]);
      IndicesPush(r.open, Call(v, k));
      ReadOne(r, CallBefore(v, k));
      TraceNests(f, path + [k], 0, within);
      var done := Reading(within.open, r.visits + Places(f, path + [k], 0));
      ReadOne(done, CallAfter(v, k));
      ReadConcat(r, [CallBefore(v, k)], Trace(f, path + [k], 0));
      ReadConcat(r, [CallBefore(v, k)] + Trace(f, path + [k], 0), [CallAfter(v, k)]);
      assert Read(r, CallBefore(v, k)) == within;
      assert done.open[..|done.open| - 1] == r.open;
    } else {
      NothingLeft(f, path + [k], 0);
      assert r.visits + [] == r.visits;
      assert ReadAll(r, []) == r;
    }
  }

  // ----- pre-order -----

  /** A place comes before those below it, and before those below a later sibling. */
  predicate Earlier(p: seq<nat>, q: seq<nat>) {
    if q == [] then false
    else if p == [] then true
    else p[0] < q[0] || (p[0] == q[0] && Earlier(p[1..], q[1..]))
  }

  lemma {:induction false} EarlierUnder(path: seq<nat>, p: seq<nat>, q: seq<nat>)
    ensures Earlier(path + p, path + q) == Earlier(p, q)
  {
    if path == [] {
      assert path + p == p && path + q == q;
    } else {
      assert (path + p)[1..] == path[1..] + p && (path + q)[1..] == path[1..] + q;
      EarlierUnder(path[1..], p, q);
    }
  }

  /** The visit's place lies under one of the siblings from the k-th on, and its node is there. */
  ghost predicate Under(f: Forest, path: seq<nat>, k: nat, x: Visit) {
    |x.path| > |path| && x.path[..|path|] == path && x.path[|path|] >= k
    && ListAt(f, x.path).Some? && x.v == NodeAt(f, x.path)
  }

  ghost predicate Before(s: seq<Visit>, i: int, j: int)
    requires 0 <= i < j < |s|
  {
    Earlier(s[i].path, s[j].path)
  }

  ghost predicate InPreOrder(s: seq<Visit>) {
    forall i, j :: 0 <= i < j < |s| ==> Before(s, i, j)
  }

  lemma {:induction false} PlacesUnder(f: Forest, path: seq<nat>, k: nat, i: nat)
    requires NoRepeats(f) && ListAt(f, path).Some? && k <= |ListAt(f, path).value|
    requires i < |Places(f, path, k)|
    ensures Under(f, path, k, Places(f, path, k)[i])
    decreases |All(f)| - |path|, |ListAt(f, path).value| - k
  {
    hide NoRepeats, All, Sons, Places, NodeAt, ListAt;
    if k == |ListAt(f, path).value| {
      NothingLeft(f, path, k);
    } else {
      PlacesUnfold(f, path, k);
      var below := Places(f, path + [k], 0);
      if i == 0 {
        assert (path + [k])[..|path|] == path;
      } else if i <= |below| {
        PlacesUnder(f, path + [k], 0, i - 1);
        UnderSon(f, path, k, below[i - 1]);
      } else {
        PlacesUnder(f, path, k + 1, i - 1 - |below|);
      }
    }
  }

  lemma EarlierApart(path: seq<nat>, p: seq<nat>, q: seq<nat>, k: nat)
    requires |p| > |path| && p[..|path|] == path && p[|path|] == k
    requires |q| > |path| && q[..|path|] == path
    ensures q[|path|] > k ==> Earlier(p, q)
    ensures p == path + [k] && |q| > |path| + 1 && q[|path|] == k ==> Earlier(p, q)
  {
    var a, b := p[|path|..], q[|path|..];
    assert p == path + a && q == path + b;
    EarlierUnder(path, a, b);
  }

  /** A place, then the places below it, then those from the next sibling on. */
  lemma OrderJoins(f: Forest, path: seq<nat>, k: nat, x: Visit, below: seq<Visit>, rest: seq<Visit>)
    requires x.path == path + [k] && InPreOrder(below) && InPreOrder(rest)
    requires forall i :: 0 <= i < |below| ==> Under(f, path + [k], 0, below[i])
    requires forall i :: 0 <= i < |rest| ==> Under(f, path, k + 1, rest[i])
    ensures InPreOrder([x] + below + rest)
  {
    hide ListAt, NodeAt;
    var s, m := [x] + below + rest, |below|;
    forall i, j | 0 <= i < j < |s| ensures Before(s, i, j) {
      if i > m {
        assert Before(rest, i - 1 - m, j - 1 - m);
      } else if 0 < i && j <= m {
        assert Before(below, i - 1, j - 1);
      } else {
        assert (path + [k])[..|path|] == path;
        if i > 0 { UnderSon(f, path, k, below[i - 1]); }
        if j <= m { UnderSon(f, path, k, below[j - 1]); } else { assert Under(f, path, k + 1, rest[j - 1 - m]); }
        EarlierApart(path, s[i].path, s[j].path, k);
      }
    }
  }

  lemma NothingOrdered()
    ensures InPreOrder([])
  {
  }

  lemma {:induction false} PlacesOrdered(f: Forest, path: seq<nat>, k: nat)
    requires NoRepeats(f) && ListAt(f, path).Some? && k <= |ListAt(f, path).value|
    ensures InPreOrder(Places(f, path, k))
    decreases |All(f)| - |path|, |ListAt(f, path).value| - k
  {
    hide NoRepeats, All, Sons, Places, InPreOrder, Under, ListAt, NodeAt;
    NothingOrdered();
    if k == |ListAt(f, path).value| {
      NothingLeft(f, path, k);
    } else {
      PlacesUnfold(f, path, k);
      PlacesOrdered(f, path + [k], 0);
      PlacesOrdered(f, path, k + 1);
      var below, rest := Places(f, path + [k], 0), Places(f, path, k + 1);
      forall i | 0 <= i < |below| ensures Under(f, path + [k], 0, below[i]) { PlacesUnder(f, path + [k], 0, i); }
      forall i | 0 <= i < |rest| ensures Under(f, path, k + 1, rest[i]) { PlacesUnder(f, path, k + 1, i); }
      OrderJoins(f, path, k, Visit(path + [k], ListAt(f, path).value[k]), below, rest);
    }
  }

  lemma UnderSon(f: Forest, path: seq<nat>, k: nat, x: Visit)
    requires Under(f, path + [k], 0, x)
    ensures |x.path| > |path| + 1 && x.path[..|path|] == path && x.path[|path|] == k
  {
    assert x.path[..|path|] == x.path[..|path| + 1][..|path|] && x.path[|path|] == x.path[..|path| + 1][|path|];
  }

  // ----- every place -----

  lemma {:induction false} PlacesComplete(f: Forest, path: seq<nat>, k: nat, q: seq<nat>)
    requires NoRepeats(f) && ListAt(f, path).Some? && k <= |ListAt(f, path).value|
    requires |q| > |path| && q[..|path|] == path && q[|path|] >= k && ListAt(f, q).Some?
    ensures Visit(q, NodeAt(f, q)) in Places(f, path, k)
    decreases |All(f)| - |path|, |ListAt(f, path).value| - k
  {
    hide NoRepeats, All, Sons, Places, NodeAt;
    PrefixLeads(f, q, |path| + 1);
    assert q[..|path| + 1] == path + [q[|path|]];
    assert (path + [q[|path|]])[..|path|] == path;
    PlacesUnfold(f, path, k);
    if q[|path|] > k {
      PlacesComplete(f, path, k + 1, q);
    } else if |q| == |path| + 1 {
      assert q == path + [k];
    } else {
      PlacesComplete(f, path + [k], 0, q);
    }
  }

  // ----- reachable nodes -----

  /** A line of descent: a top node, then each a child of the one before. */
  ghost predicate Descent(f: Forest, line: seq<Node>) {
    line != [] && line[0] in f.father
    && forall i :: 0 < i < |line| ==> line[i] in f.children && line[i].pid == line[i - 1].id
  }

  ghost predicate Reachable(f: Forest, v: Node) {
    exists line :: Descent(f, line) && line[|line| - 1] == v
  }

  lemma {:induction false} DescentHasPlace(f: Forest, line: seq<Node>) returns (q: seq<nat>)
    requires Descent(f, line)
    ensures q != [] && ListAt(f, q).Some? && NodeAt(f, q) == line[|line| - 1]
  {
    var v := line[|line| - 1];
    if |line| == 1 {
      var k: nat :| k < |f.father| && f.father[k] == v;
      q := [] + [k];
      ListAtSon(f, [], k);
    } else {
      var up := DescentHasPlace(f, line[..|line| - 1]);
      var u := NodeAt(f, up);
      WithParentHas(f.children, u.id, v);
      var k: nat :| k < |Sons(f, u)| && Sons(f, u)[k] == v;
      ListAtSon(f, up, k);
      q := up + [k];
    }
  }

  lemma {:induction false} PlaceHasDescent(f: Forest, q: seq<nat>) returns (line: seq<Node>)
    requires q != [] && ListAt(f, q).Some?
    ensures Descent(f, line) && line[|line| - 1] == NodeAt(f, q)
    decreases |q|
  {
    NodeParent(f, q);
    if |q| == 1 {
      line := [NodeAt(f, q)];
    } else {
      var up := PlaceHasDescent(f, q[..|q| - 1]);
      line := up + [NodeAt(f, q)];
    }
  }

  /** The callbacks are told how many children a node has. */
  predicate CountRight(f: Forest, e: Event) {
    (e.ForBefore? || e.ForCurr? || e.ForAfter?) ==> e.children == |Sons(f, e.v)|
  }

  ghost predicate CountsRight(f: Forest, trace: seq<Event>) {
    forall i :: 0 <= i < |trace| ==> CountRight(f, trace[i])
  }

  lemma {:induction false} TraceCounts(f: Forest, path: seq<nat>, k: nat)
    requires NoRepeats(f) && ListAt(f, path).Some? && k <= |ListAt(f, path).value|
    ensures CountsRight(f, Trace(f, path, k))
    decreases |All(f)| - |path|, |ListAt(f, path).value| - k
  {
    hide NoRepeats, All, Sons, Trace, ListAt, NodeAt;
    DepthBound(f, path);
    if k == |ListAt(f, path).value| {
      NothingLeft(f, path, k);
    } else {
      PlacesUnfold(f, path, k);
      TraceUnfolds(f, path, k);
      TraceCounts(f, path, k + 1);
      TraceCounts(f, path + [k], 0);
    }
  }

  /** What a traversal of a whole forest is: balanced callbacks, with right counts of children; every
      place visited, in pre-order; and a node visited just when it can be reached from the top. */
  ghost predicate Traverses(f: Forest, trace: seq<Event>) {
    var r := ReadAll(Reading([], []), trace);
    r.Reading? && r.open == [] && InPreOrder(r.visits) && CountsRight(f, trace)
    && (forall x :: x in r.visits ==> x.path != [] && ListAt(f, x.path).Some? && x.v == NodeAt(f, x.path))
    && (forall q :: q != [] && ListAt(f, q).Some? ==> Visit(q, NodeAt(f, q)) in r.visits)
    && forall v :: Reachable(f, v) <==> Visited(r.visits, v)
  }

  /** No node is handed to forcurr twice. */
  ghost predicate VisitsOnce(trace: seq<Event>) {
    var r := ReadAll(Reading([], []), trace);
    r.Reading? && forall i, j :: 0 <= i < |r.visits| && 0 <= j < |r.visits| && r.visits[i].v == r.visits[j].v ==> i == j
  }

  ghost predicate Visited(visits: seq<Visit>, v: Node) {
    exists i :: 0 <= i < |visits| && visits[i].v == v
  }

  lemma {:induction false} NotEarlier(p: seq<nat>)
    ensures !Earlier(p, p)
  {
    if p != [] { NotEarlier(p[1..]); }
  }

  lemma VisitedIsReachable(f: Forest, v: Node)
    requires NoRepeats(f)
    ensures Reachable(f, v) <==> Visited(Places(f, [], 0), v)
  {
    hide NoRepeats, Places, NodeAt;
    var visits := Places(f, [], 0);
    if Reachable(f, v) {
      var line :| Descent(f, line) && line[|line| - 1] == v;
      var q := DescentHasPlace(f, line);
      assert q[..0] == [];
      PlacesComplete(f, [], 0, q);
    }
    if i :| 0 <= i < |visits| && visits[i].v == v {
      PlacesUnder(f, [], 0, i);
      var line := PlaceHasDescent(f, visits[i].path);
    }
  }

  lemma VisitedOnce(f: Forest, topid: int, i: nat, j: nat)
    requires WellFormed(f, topid) && NoRepeats(f) && i < |Places(f, [], 0)| && j < |Places(f, [], 0)|
    requires Places(f, [], 0)[i].v == Places(f, [], 0)[j].v
    ensures i == j
  {
    hide WellFormed, NoRepeats, Places, NodeAt;
    var visits := Places(f, [], 0);
    PlacesUnder(f, [], 0, i);
    PlacesUnder(f, [], 0, j);
    PlacesOrdered(f, [], 0);
    OnePlace(f, topid, visits[i].path, visits[j].path);
    NotEarlier(visits[i].path);
    assert i < j ==> Before(visits, i, j);
    assert j < i ==> Before(visits, j, i);
  }

  lemma VisitsArePlaces(f: Forest, x: Visit)
    requires NoRepeats(f) && x in Places(f, [], 0)
    ensures x.path != [] && ListAt(f, x.path).Some? && x.v == NodeAt(f, x.path)
  {
    hide NoRepeats, Places, NodeAt;
    var i: nat :| i < |Places(f, [], 0)| && Places(f, [], 0)[i] == x;
    PlacesUnder(f, [], 0, i);
  }

  lemma TraceReads(f: Forest)
    requires NoRepeats(f)
    ensures ReadAll(Reading([], []), Trace(f, [], 0)) == Reading([], Places(f, [], 0))
  {
    hide NoRepeats, Places, Trace, NodeAt, ReadAll;
    TraceNests(f, [], 0, Reading([], []));
    assert [] + Places(f, [], 0) == Places(f, [], 0);
  }

  lemma TraceTraverses(f: Forest)
    requires NoRepeats(f)
    ensures Traverses(f, Trace(f, [], 0))
  {
    hide NoRepeats, Places, Trace, NodeAt, ListAt, Reachable, InPreOrder, ReadAll, Visited, CountsRight;
    assert ListAt(f, []).Some? && 0 <= |ListAt(f, []).value| by { TopIsThere(f); }
    var visits := Places(f, [], 0);
    TraceReads(f);
    TraceCounts(f, [], 0);
    PlacesOrdered(f, [], 0);
    forall x | x in visits ensures x.path != [] && ListAt(f, x.path).Some? && x.v == NodeAt(f, x.path) {
      VisitsArePlaces(f, x);
    }
    forall v ensures Reachable(f, v) <==> Visited(visits, v) {
      VisitedIsReachable(f, v);
    }
    forall q | q != [] && ListAt(f, q).Some? ensures Visit(q, NodeAt(f, q)) in visits {
      assert q[..0] == [];
      PlacesComplete(f, [], 0, q);
    }
  }

  /** With unique ids a node is at one place only, so it is visited once. */
  lemma TraceVisitsOnce(f: Forest, topid: int)
    requires WellFormed(f, topid)
    ensures NoRepeats(f) && VisitsOnce(Trace(f, [], 0))
  {
    hide WellFormed, NoRepeats, Places, Trace, ReadAll;
    UniqueIdsHaveBottom(f, topid);
    TraceReads(f);
    var visits := Places(f, [], 0);
    forall i, j | 0 <= i < |visits| && 0 <= j < |visits| && visits[i].v == visits[j].v ensures i == j {
      VisitedOnce(f, topid, i, j);
    }
  }

  lemma TopIsThere(f: Forest)
    ensures ListAt(f, []) == Some(f.father)
  {
  }

  // ----- the order of the array -----

  function VisitsOf(trace: seq<Event>): seq<Visit> {
    match ReadAll(Reading([], []), trace)
    case Unbalanced => []
    case Reading(_, visits) => visits
  }

  /** Visit i is of a son of the node at `above`, or of a top node if that is empty, and stands at p. */
  ghost predicate SonAt(visits: seq<Visit>, pos: seq<nat>, above: seq<nat>, p: nat, i: int) {
    0 <= i < |visits| == |pos| && Below(visits[i], above) && pos[i] == p
  }

  predicate Below(x: Visit, above: seq<nat>) { |x.path| == |above| + 1 && x.path[..|above|] == above }

  predicate Siblings(x: Visit, y: Visit) { x.path != [] && Below(y, x.path[..|x.path| - 1]) }

  /** The node stands at that position, and the visit of its parent, if it is not at the top, was earlier. */
  ghost predicate StandsRight(arr: seq<Node>, topid: int, visits: seq<Visit>, i: int, p: nat)
    requires 0 <= i < |visits|
  {
    p < |arr| && arr[p] == visits[i].v && visits[i].path != []
    && if |visits[i].path| == 1 then arr[p].pid == topid
       else arr[p].pid != topid && exists h :: 0 <= h < i && Below(visits[i], visits[h].path) && arr[p].pid == visits[h].v.id
  }

  ghost predicate HasSon(visits: seq<Visit>, pos: seq<nat>, above: seq<nat>, p: nat) {
    exists i :: SonAt(visits, pos, above, p, i)
  }

  /** pos says where in the array each visited node stands: siblings come in the order of the array, below
      each visited node are its sons, and none of the array's is left out. */
  ghost predicate ByArray(arr: seq<Node>, topid: int, visits: seq<Visit>, pos: seq<nat>) {
    |pos| == |visits|
    && (forall i :: 0 <= i < |visits| ==> StandsRight(arr, topid, visits, i, pos[i]))
    && (forall i, j :: 0 <= i < j < |visits| && Siblings(visits[i], visits[j]) ==> pos[i] < pos[j])
    && (forall p: nat :: p < |arr| && arr[p].pid == topid ==> HasSon(visits, pos, [], p))
    && forall h, p: nat :: 0 <= h < |visits| && p < |arr| && arr[p].pid == visits[h].v.id != topid ==>
         HasSon(visits, pos, visits[h].path, p)
  }

  /** Of two nodes with one parent id the one earlier in the array is visited first. */
  ghost predicate EarlierFirst(arr: seq<Node>, visits: seq<Visit>) {
    forall a, b, i, j :: 0 <= a < b < |arr| && arr[a].pid == arr[b].pid && IsVisit(visits, i, arr[a]) && IsVisit(visits, j, arr[b])
                         ==> i < j
  }

  ghost predicate IsVisit(visits: seq<Visit>, i: int, v: Node) {
    0 <= i < |visits| && visits[i].v == v
  }

  lemma EarlierSibling(x: Visit, y: Visit)
    requires Siblings(x, y) && Earlier(x.path, y.path)
    ensures x.path[|x.path| - 1] < y.path[|y.path| - 1]
  {
    var up := x.path[..|x.path| - 1];
    var k, l := x.path[|x.path| - 1], y.path[|y.path| - 1];
    assert x.path == up + [k] && y.path == up + [l];
    EarlierUnder(up, [k], [l]);
    assert [k][1..] == [];
  }

  lemma ParentEarlier(path: seq<nat>)
    requires path != []
    ensures !Earlier(path, path[..|path| - 1])
  {
    var up := path[..|path| - 1];
    assert path == up + [path[|path| - 1]] && up == up + [];
    EarlierUnder(up, [path[|path| - 1]], []);
  }

  lemma {:induction false} StandsInArray(arr: seq<Node>, topid: int, trace: seq<Event>, i: nat)
    requires Traverses(Split(arr, topid), trace) && i < |VisitsOf(trace)|
    ensures var visits, f := VisitsOf(trace), Split(arr, topid);
            visits[i].path != [] && ListAt(f, visits[i].path).Some?
            && StandsRight(arr, topid, visits, i, PlaceInArray(arr, topid, visits[i].path))
  {
    hide Traverses, VisitsOf, Split, ListAt, NodeAt;
    var visits, f := VisitsOf(trace), Split(arr, topid);
    VisitsStand(f, trace, i);
    var path := visits[i].path;
    NodeParent(f, path);
    TopOrNot(arr, topid, NodeAt(f, path), path);
    if |path| > 1 { var _ := ParentVisited(f, trace, i); }
  }

  lemma ParentVisited(f: Forest, trace: seq<Event>, i: nat) returns (h: nat)
    requires Traverses(f, trace) && i < |VisitsOf(trace)| && |VisitsOf(trace)[i].path| > 1
    ensures var path := VisitsOf(trace)[i].path; var up := path[..|path| - 1];
            h < i && ListAt(f, up).Some? && VisitsOf(trace)[h] == Visit(up, NodeAt(f, up))
  {
    hide InPreOrder, CountsRight, ReadAll, Reachable, Visited, ListAt, NodeAt;
    var visits := VisitsOf(trace);
    VisitsStand(f, trace, i);
    var path := visits[i].path;
    NodeParent(f, path);
    var up := path[..|path| - 1];
    assert Visit(up, NodeAt(f, up)) in visits;
    h :| 0 <= h < |visits| && visits[h] == Visit(up, NodeAt(f, up));
    ParentEarlier(path);
    if h > i { InOrderOf(visits, i, h); }
  }

  lemma InOrderOf(visits: seq<Visit>, i: nat, j: nat)
    requires InPreOrder(visits) && i < j < |visits|
    ensures Earlier(visits[i].path, visits[j].path)
  {
    assert Before(visits, i, j);
  }

  lemma TopOrNot(arr: seq<Node>, topid: int, v: Node, path: seq<nat>)
    requires path != [] && ListAt(Split(arr, topid), path).Some? && v == NodeAt(Split(arr, topid), path)
    ensures v.pid == topid <==> |path| == 1
  {
    NodeParent(Split(arr, topid), path);
    WithParentHas(arr, topid, v);
    WithoutParentHas(arr, topid, v);
  }

  function PlacesInArray(arr: seq<Node>, topid: int, visits: seq<Visit>): (pos: seq<nat>)
    requires forall i :: 0 <= i < |visits| ==> visits[i].path != [] && ListAt(Split(arr, topid), visits[i].path).Some?
  {
    seq(|visits|, i requires 0 <= i < |visits| => PlaceInArray(arr, topid, visits[i].path))
  }

  lemma SonVisited(arr: seq<Node>, topid: int, trace: seq<Event>, pos: seq<nat>, path: seq<nat>, p: nat)
    requires Traverses(Split(arr, topid), trace) && |pos| == |VisitsOf(trace)|
    requires forall i :: 0 <= i < |pos| ==>
               var x := VisitsOf(trace)[i];
               x.path != [] && ListAt(Split(arr, topid), x.path).Some? && pos[i] == PlaceInArray(arr, topid, x.path)
    requires ListAt(Split(arr, topid), path).Some? && p < |arr|
    requires arr[p].pid == ParentId(Split(arr, topid), topid, path) && (path != [] ==> arr[p].pid != topid)
    ensures HasSon(VisitsOf(trace), pos, path, p)
  {
    hide InPreOrder, CountsRight, ReadAll, Reachable, Visited, Split, ListAt, NodeAt;
    var visits, f := VisitsOf(trace), Split(arr, topid);
    var q := SonHasPlace(arr, topid, path, p);
    assert Visit(q, NodeAt(f, q)) in visits;
    var i :| 0 <= i < |visits| && visits[i] == Visit(q, NodeAt(f, q));
    assert SonAt(visits, pos, path, p, i);
  }

  /** A traversal of the array's forest goes by the array. */
  lemma TraversesByArray(arr: seq<Node>, topid: int, trace: seq<Event>) returns (pos: seq<nat>)
    requires Traverses(Split(arr, topid), trace)
    ensures ByArray(arr, topid, VisitsOf(trace), pos)
  {
    hide CountsRight, ReadAll, Reachable, Visited, Split, ListAt, NodeAt, StandsRight, HasSon, Traverses, InPreOrder;
    var visits, f := VisitsOf(trace), Split(arr, topid);
    forall i | 0 <= i < |visits|
      ensures visits[i].path != [] && ListAt(f, visits[i].path).Some? && visits[i].v == NodeAt(f, visits[i].path)
      ensures StandsRight(arr, topid, visits, i, PlaceInArray(arr, topid, visits[i].path))
    {
      StandsInArray(arr, topid, trace, i);
      VisitsStand(f, trace, i);
    }
    pos := PlacesInArray(arr, topid, visits);
    forall i, j | 0 <= i < j < |visits| && Siblings(visits[i], visits[j]) ensures pos[i] < pos[j] {
      VisitsOrdered(f, trace);
      InOrderOf(visits, i, j);
      EarlierSibling(visits[i], visits[j]);
      SiblingsRise(arr, topid, visits[i].path, visits[j].path);
    }
    TopIsThere(f);
    forall p: nat | p < |arr| && arr[p].pid == topid ensures HasSon(visits, pos, [], p) {
      SonVisited(arr, topid, trace, pos, [], p);
    }
    forall h, p: nat | 0 <= h < |visits| && p < |arr| && arr[p].pid == visits[h].v.id != topid
      ensures HasSon(visits, pos, visits[h].path, p)
    {
      SonVisited(arr, topid, trace, pos, visits[h].path, p);
    }
  }

  lemma VisitsStand(f: Forest, trace: seq<Event>, i: nat)
    requires Traverses(f, trace) && i < |VisitsOf(trace)|
    ensures var x := VisitsOf(trace)[i]; x.path != [] && ListAt(f, x.path).Some? && x.v == NodeAt(f, x.path)
  {
    hide ReadAll, ListAt, NodeAt, Reachable, Visited;
    assert VisitsOf(trace)[i] in VisitsOf(trace);
  }

  lemma VisitsOrdered(f: Forest, trace: seq<Event>)
    requires Traverses(f, trace)
    ensures InPreOrder(VisitsOf(trace))
  {
  }

  /** With unique ids, that is the order of the array among the nodes of each parent id. */
  lemma ByArrayEarlierFirst(arr: seq<Node>, topid: int, trace: seq<Event>, pos: seq<nat>)
    requires UniqueIds(arr) && VisitsOnce(trace) && ByArray(arr, topid, VisitsOf(trace), pos)
    ensures EarlierFirst(arr, VisitsOf(trace))
  {
    hide ReadAll, HasSon;
    var visits := VisitsOf(trace);
    forall a, b, i, j | 0 <= a < b < |arr| && arr[a].pid == arr[b].pid && IsVisit(visits, i, arr[a]) && IsVisit(visits, j, arr[b])
      ensures i < j
    {
      assert StandsRight(arr, topid, visits, i, pos[i]) && StandsRight(arr, topid, visits, j, pos[j]);
      UniqueIndex(arr, pos[i], a);
      UniqueIndex(arr, pos[j], b);
      SameParent(arr, topid, trace, pos, i, j);
      SameParent(arr, topid, trace, pos, j, i);
    }
  }

  lemma SameParent(arr: seq<Node>, topid: int, trace: seq<Event>, pos: seq<nat>, i: nat, j: nat)
    requires UniqueIds(arr) && VisitsOnce(trace) && ByArray(arr, topid, VisitsOf(trace), pos)
    requires i < |pos| && j < |pos| && VisitsOf(trace)[i].v.pid == VisitsOf(trace)[j].v.pid
    ensures Siblings(VisitsOf(trace)[i], VisitsOf(trace)[j])
  {
    hide ReadAll, HasSon;
    var visits := VisitsOf(trace);
    assert StandsRight(arr, topid, visits, i, pos[i]) && StandsRight(arr, topid, visits, j, pos[j]);
    if |visits[i].path| > 1 {
      var g :| 0 <= g < i && Below(visits[i], visits[g].path) && arr[pos[i]].pid == visits[g].v.id;
      var h :| 0 <= h < j && Below(visits[j], visits[h].path) && arr[pos[j]].pid == visits[h].v.id;
      assert StandsRight(arr, topid, visits, g, pos[g]) && StandsRight(arr, topid, visits, h, pos[h]);
      UniqueIndex(arr, pos[g], pos[h]);
    }
  }

  // ----- the class -----

  class Traversal {
    const topid: int
    ghost const arr: seq<Node>   // what the constructor was given
    var father: seq<Node>
    var children: seq<Node>
    var trace: seq<Event>        // the callbacks made so far

    ghost function Abs(): Forest
      reads this
    {
      Forest(father, children)
    }

    /** The array is split between the two lists, and stays so. */
    ghost predicate Valid()
      reads this
    {
      Abs() == Split(arr, topid)
    }

    constructor (arr: seq<Node>, topid: int)
      ensures Valid() && Abs() == Split(arr, topid) && trace == [] && this.topid == topid && this.arr == arr
      ensures InArrayOrder(arr, topid, true, father) && InArrayOrder(arr, topid, false, children)
      ensures UniqueIds(arr) ==> WellFormed(Abs(), topid) && NoRepeats(Abs())
    {
      this.topid, this.arr := topid, arr;
      hide InArrayOrder, WellFormed, NoRepeats, UniqueIds;
      SplitInOrder(arr, topid);
      var top, others, i := [], [], 0;
      while i < |arr|
        invariant 0 <= i <= |arr| && top == WithParent(arr[..i], topid) && others == WithoutParent(arr[..i], topid)
      {
        assert arr[..i + 1][..i] == arr[..i];
        if arr[i].pid == topid { top := top + [arr[i]]; } else { others := others + [arr[i]]; }
        i := i + 1;
      }
      assert arr[..i] == arr;
      father, children, trace := top, others, [];
      if UniqueIds(arr) {
        SplitWellFormed(arr, topid);
        UniqueIdsHaveBottom(Split(arr, topid), topid);
      }
    }

    method GetChildren(id: int) returns (son: seq<Node>)
      ensures son == WithParent(children, id)
      ensures InArrayOrder(children, id, true, son)
    {
      hide InArrayOrder;
      SonsInOrder(children, id);
      son := [];
      var i := 0;
      while i < |children|
        invariant 0 <= i <= |children| && son == WithParent(children[..i], id)
      {
        assert children[..i + 1][..i] == children[..i];
        if children[i].pid == id { son := son + [children[i]]; }
        i := i + 1;
      }
      assert children[..i] == children;
    }

    /** `path` is where the list stands; it bounds the recursion, whatever cycles the parent pointers
        of unreachable nodes make. */
    method Each(list: seq<Node>, ghost path: seq<nat>)
      requires NoRepeats(Abs()) && ListAt(Abs(), path) == Some(list)
      modifies this`trace
      ensures trace == old(trace) + Trace(Abs(), path, 0)
      decreases |All(Abs())| - |path|
    {
      hide NoRepeats, All, Trace, ListAt, WithParent;
      ghost var f := Abs();
      DepthBound(f, path);
      var i := 0;
      while i < |list|
        invariant 0 <= i <= |list| && Abs() == f
        invariant trace + Trace(f, path, i) == old(trace) + Trace(f, path, 0)
      {
        ListAtSon(f, path, i);
        DepthBound(f, path + [i]);
        ghost var before := trace;
        var sons := GetChildren(list[i].id);
        var counter := |sons|;
        trace := trace + [ForBefore(list[i], i, counter)];
        trace := trace + [ForCurr(list[i], i, counter)];
        if counter > 0 {
          trace := trace + [CallBefore(list[i], i)];
          Each(sons, path + [i]);
          trace := trace + [CallAfter(list[i], i)];
        }
        trace := trace + [ForAfter(list[i], i, counter)];
        TraceStep(f, path, i, before);
        i := i + 1;
      }
      NothingLeft(f, path, i);
      assert trace + [] == trace;
    }

    /** each() without an argument.  It ends exactly when no path repeats an id (BottomIffNoRepeats). */
    method EachFromTop()
      requires Valid() && NoRepeats(Abs()) && trace == []
      modifies this`trace
      ensures Traverses(Abs(), trace)
      ensures WellFormed(Abs(), topid) ==> VisitsOnce(trace)
      ensures exists pos :: ByArray(arr, topid, VisitsOf(trace), pos)
      ensures UniqueIds(arr) ==> EarlierFirst(arr, VisitsOf(trace))
    {
      hide Traverses, VisitsOnce, ByArray, EarlierFirst, NoRepeats, Trace, WellFormed;
      Each(father, []);
      assert [] + Trace(Abs(), [], 0) == Trace(Abs(), [], 0);
      TraceTraverses(Abs());
      if WellFormed(Abs(), topid) { TraceVisitsOnce(Abs(), topid); }
      var pos := TraversesByArray(arr, topid, trace);
      if UniqueIds(arr) {
        SplitWellFormed(arr, topid);
        ByArrayEarlierFirst(arr, topid, trace, pos);
      }
    }
  }

  lemma TraceStep(f: Forest, path: seq<nat>, k: nat, before: seq<Event>)
    requires NoRepeats(f) && ListAt(f, path).Some? && k < |ListAt(f, path).value|
    ensures ListAt(f, path + [k]).Some?
    ensures var v := ListAt(f, path).value[k]; var n := |Sons(f, v)|;
            before + Trace(f, path, k)
            == (if n > 0 then before + [ForBefore(v, k, n)] + [ForCurr(v, k, n)] + [CallBefore(v, k)] + Trace(f, path + [k], 0)
                              + [CallAfter(v, k)] + [ForAfter(v, k, n)]
                else before + [ForBefore(v, k, n)] + [ForCurr(v, k, n)] + [ForAfter(v, k, n)]) + Trace(f, path, k + 1)
  {
    hide NoRepeats, Trace, ListAt, All, Sons;
    ListAtSon(f, path, k);
    TraceUnfolds(f, path, k);
  }

  // ----- ids that are not unique -----

  lemma SharedIdSplit()
    ensures Split([Node(1, 0), Node(1, 1)], 0) == Forest([Node(1, 0)], [Node(1, 1)])
    ensures WithParent([Node(1, 1)], 1) == [Node(1, 1)]
  {
    var arr := [Node(1, 0), Node(1, 1)];
    assert arr[..1] == [arr[0]] && arr[..1][..0] == [];
    assert WithParent(arr[..1], 0) == [arr[0]] && WithoutParent(arr[..1], 0) == [];
    assert [arr[1]][..0] == [];
  }

  /** A top node and a node under it that share an id, the second its own child: there are places at
      every depth, so the traversal never ends. */
  lemma {:induction false} SharedIdHasNoBottom(n: nat) returns (q: seq<nat>)
    ensures |q| == n && ListAt(Split([Node(1, 0), Node(1, 1)], 0), q) == Some(if n == 0 then [Node(1, 0)] else [Node(1, 1)])
  {
    var f := Split([Node(1, 0), Node(1, 1)], 0);
    SharedIdSplit();
    if n == 0 {
      q := [];
    } else {
      var up := SharedIdHasNoBottom(n - 1);
      ListAtSon(f, up, 0);
      q := up + [0];
    }
  }
}
