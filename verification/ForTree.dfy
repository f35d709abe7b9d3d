/** A forest given as a flat array of nodes that name their parents, and the trace of callbacks its
    recursive traversal makes.  A place in the forest is the path of sibling indices that leads there. */
module ForTree {
  import opened Commands
  import Sets

  datatype Node = Node(id: int, pid: int)

  datatype Event =
    | ForBefore(v: Node, k: nat, children: nat)
    | ForCurr(v: Node, k: nat, children: nat)
    | CallBefore(v: Node, k: nat)
    | CallAfter(v: Node, k: nat)
    | ForAfter(v: Node, k: nat, children: nat)

  /** What the constructor keeps: the nodes at the top, and all others. */
  datatype Forest = Forest(father: seq<Node>, children: seq<Node>)

  // ----- the constructor and getChildren -----

  function WithParent(nodes: seq<Node>, id: int): seq<Node> {
    if nodes == [] then []
    else WithParent(nodes[..|nodes| - 1], id) + if nodes[|nodes| - 1].pid == id then [nodes[|nodes| - 1]] else []
  }

  function WithoutParent(nodes: seq<Node>, id: int): seq<Node> {
    if nodes == [] then []
    else WithoutParent(nodes[..|nodes| - 1], id) + if nodes[|nodes| - 1].pid != id then [nodes[|nodes| - 1]] else []
  }

  function Split(arr: seq<Node>, topid: int): Forest {
    Forest(WithParent(arr, topid), WithoutParent(arr, topid))
  }

  function Sons(f: Forest, v: Node): seq<Node> {
    WithParent(f.children, v.id)
  }

  lemma {:induction false} WithParentHas(nodes: seq<Node>, id: int, v: Node)
    ensures v in WithParent(nodes, id) <==> v in nodes && v.pid == id
  {
    if nodes != [] {
      WithParentHas(nodes[..|nodes| - 1], id, v);
      assert nodes == nodes[..|nodes| - 1] + [nodes[|nodes| - 1]];
    }
  }

  lemma {:induction false} WithoutParentHas(nodes: seq<Node>, id: int, v: Node)
    ensures v in WithoutParent(nodes, id) <==> v in nodes && v.pid != id
  {
    if nodes != [] {
      WithoutParentHas(nodes[..|nodes| - 1], id, v);
      assert nodes == nodes[..|nodes| - 1] + [nodes[|nodes| - 1]];
    }
  }

  ghost predicate UniqueIds(nodes: seq<Node>) {
    forall i, j :: 0 <= i < j < |nodes| ==> nodes[i].id != nodes[j].id
  }

  lemma {:induction false} WithParentUnique(nodes: seq<Node>, id: int)
    requires UniqueIds(nodes)
    ensures UniqueIds(WithParent(nodes, id))
  {
    if nodes != [] {
      var before, last := nodes[..|nodes| - 1], nodes[|nodes| - 1];
      WithParentUnique(before, id);
      forall i | 0 <= i < |WithParent(before, id)| ensures WithParent(before, id)[i].id != last.id {
        WithParentHas(before, id, WithParent(before, id)[i]);
      }
    }
  }

  lemma {:induction false} WithoutParentUnique(nodes: seq<Node>, id: int)
    requires UniqueIds(nodes)
    ensures UniqueIds(WithoutParent(nodes, id))
  {
    if nodes != [] {
      var before, last := nodes[..|nodes| - 1], nodes[|nodes| - 1];
      WithoutParentUnique(before, id);
      forall i | 0 <= i < |WithoutParent(before, id)| ensures WithoutParent(before, id)[i].id != last.id {
        WithoutParentHas(before, id, WithoutParent(before, id)[i]);
      }
    }
  }

  /** The forest the traversal is right for: ids are unique, and the top nodes' parent is nobody
      else's. */
  ghost predicate WellFormed(f: Forest, topid: int) {
    UniqueIds(f.father) && UniqueIds(f.children)
    && (forall u, v :: u in f.father && v in f.children ==> u.id != v.id)
    && (forall u :: u in f.father ==> u.pid == topid) && forall v :: v in f.children ==> v.pid != topid
  }

  lemma SplitWellFormed(arr: seq<Node>, topid: int)
    requires UniqueIds(arr)
    ensures WellFormed(Split(arr, topid), topid)
    ensures forall v :: v in arr <==> v in Split(arr, topid).father || v in Split(arr, topid).children
  {
    WithParentUnique(arr, topid);
    WithoutParentUnique(arr, topid);
    forall v ensures (v in WithParent(arr, topid) <==> v in arr && v.pid == topid)
                     && (v in WithoutParent(arr, topid) <==> v in arr && v.pid != topid)
    {
      WithParentHas(arr, topid, v);
      WithoutParentHas(arr, topid, v);
    }
  }

  // ----- places -----

  /** The siblings at the end of a path, if the path leads anywhere. */
  function ListAt(f: Forest, path: seq<nat>): Option<seq<Node>>
    decreases |path|
  {
    if path == [] then Some(f.father)
    else
      match ListAt(f, path[..|path| - 1])
      case None => None
      case Some(list) => if path[|path| - 1] < |list| then Some(Sons(f, list[path[|path| - 1]])) else None
  }

  /** The node at a path. */
  function NodeAt(f: Forest, path: seq<nat>): Node
    requires path != [] && ListAt(f, path).Some?
  {
    ListAt(f, path[..|path| - 1]).value[path[|path| - 1]]
  }

  lemma ListAtSon(f: Forest, path: seq<nat>, k: nat)
    requires ListAt(f, path).Some? && k < |ListAt(f, path).value|
    ensures ListAt(f, path + [k]) == Some(Sons(f, ListAt(f, path).value[k]))
    ensures NodeAt(f, path + [k]) == ListAt(f, path).value[k]
  {
    assert (path + [k])[..|path + [k]| - 1] == path;
  }

  /** A node below the top is a child of the node its path passes before it. */
  lemma NodeParent(f: Forest, path: seq<nat>)
    requires |path| > 0 && ListAt(f, path).Some?
    ensures |path| == 1 ==> NodeAt(f, path) in f.father
    ensures |path| > 1 ==>
              NodeAt(f, path) in f.children && ListAt(f, path[..|path| - 1]).Some?
              && NodeAt(f, path).pid == NodeAt(f, path[..|path| - 1]).id
  {
    var up := path[..|path| - 1];
    if |path| > 1 {
      WithParentHas(f.children, NodeAt(f, up).id, NodeAt(f, path));
    } else {
      assert up == [];
    }
  }

  lemma UniqueIndex(nodes: seq<Node>, i: nat, j: nat)
    requires UniqueIds(nodes) && i < |nodes| && j < |nodes| && nodes[i].id == nodes[j].id
    ensures i == j
  {
  }

  lemma SameIdSameNode(f: Forest, topid: int, u: Node, v: Node)
    requires WellFormed(f, topid) && (u in f.father || u in f.children) && (v in f.father || v in f.children) && u.id == v.id
    ensures u == v
  {
  }

  /** Each node is at one place: its parent pointers lead to the top in one way. */
  lemma {:induction false} OnePlace(f: Forest, topid: int, p: seq<nat>, q: seq<nat>)
    requires WellFormed(f, topid) && p != [] && q != [] && ListAt(f, p).Some? && ListAt(f, q).Some?
    requires NodeAt(f, p) == NodeAt(f, q)
    ensures p == q
    decreases |p|
  {
    NodeParent(f, p);
    NodeParent(f, q);
    var up, uq := p[..|p| - 1], q[..|q| - 1];
    if |p| == 1 {
      assert up == [] && uq == [];
      UniqueIndex(f.father, p[0], q[0]);
    } else {
      NodeParent(f, up);
      NodeParent(f, uq);
      SameIdSameNode(f, topid, NodeAt(f, up), NodeAt(f, uq));
      OnePlace(f, topid, up, uq);
      var siblings := ListAt(f, up).value;
      WithParentUnique(f.children, NodeAt(f, up).id);
      UniqueIndex(siblings, p[|p| - 1], q[|q| - 1]);
      assert p == up + [p[|p| - 1]] && q == uq + [q[|q| - 1]];
    }
  }

  // ----- no path is longer than the array -----

  lemma {:induction false} PrefixLeads(f: Forest, path: seq<nat>, n: nat)
    requires ListAt(f, path).Some? && n <= |path|
    ensures ListAt(f, path[..n]).Some?
    decreases |path|
  {
    if n == |path| {
      assert path[..n] == path;
    } else {
      PrefixLeads(f, path[..|path| - 1], n);
      assert path[..|path| - 1][..n] == path[..n];
    }
  }

  /** The nodes a path passes. */
  function Passed(f: Forest, path: seq<nat>): set<Node>
    requires ListAt(f, path).Some?
    decreases |path|
  {
    if path == [] then {} else Passed(f, path[..|path| - 1]) + {NodeAt(f, path)}
  }

  lemma {:induction false} PassedHas(f: Forest, path: seq<nat>, v: Node) returns (n: nat)
    requires ListAt(f, path).Some? && v in Passed(f, path)
    ensures 0 < n <= |path| && ListAt(f, path[..n]).Some? && NodeAt(f, path[..n]) == v
    decreases |path|
  {
    if v == NodeAt(f, path) {
      n := |path|;
      assert path[..n] == path;
    } else {
      n := PassedHas(f, path[..|path| - 1], v);
      assert path[..|path| - 1][..n] == path[..n];
    }
  }

  function All(f: Forest): set<Node> {
    (set v | v in f.father) + set v | v in f.children
  }

  /** The id of the i-th node a path passes. */
  function IdAt(f: Forest, path: seq<nat>, i: nat): int
    requires ListAt(f, path).Some? && 0 < i <= |path|
  {
    PrefixLeads(f, path, i);
    NodeAt(f, path[..i]).id
  }

  ghost predicate Repeats(f: Forest, path: seq<nat>) {
    ListAt(f, path).Some? && exists i: nat, j: nat :: 0 < i < j <= |path| && IdAt(f, path, i) == IdAt(f, path, j)
  }

  /** No path from the top passes two nodes of one id. */
  ghost predicate NoRepeats(f: Forest) {
    forall path :: !Repeats(f, path)
  }

  ghost predicate DepthAtMost(f: Forest, n: nat) {
    forall path :: ListAt(f, path).Some? ==> |path| <= n
  }

  /** Nodes on a path are all different, so the path is no longer than there are nodes. */
  lemma {:induction false} PathIsShort(f: Forest, path: seq<nat>)
    requires NoRepeats(f) && ListAt(f, path).Some?
    ensures |Passed(f, path)| == |path| && Passed(f, path) <= All(f)
    decreases |path|
  {
    if path != [] {
      var up := path[..|path| - 1];
      PathIsShort(f, up);
      NodeParent(f, path);
      if NodeAt(f, path) in Passed(f, up) {
        var n := PassedHas(f, up, NodeAt(f, path));
        assert up[..n] == path[..n] && path[..|path|] == path;
        assert IdAt(f, path, n) == IdAt(f, path, |path|);
        assert Repeats(f, path);
        assert false;
      }
    }
  }

  lemma DepthBound(f: Forest, path: seq<nat>)
    requires NoRepeats(f) && ListAt(f, path).Some?
    ensures |path| <= |All(f)|
  {
    PathIsShort(f, path);
    Sets.SubsetSize(Passed(f, path), All(f));
  }

  // ----- when the forest has a bottom -----

  /** Below two places with the same siblings lies the same. */
  lemma {:induction false} SameBelow(f: Forest, p: seq<nat>, q: seq<nat>, rest: seq<nat>)
    requires ListAt(f, p) == ListAt(f, q)
    ensures ListAt(f, p + rest) == ListAt(f, q + rest)
    decreases |rest|
  {
    if rest == [] {
      assert p + rest == p && q + rest == q;
    } else {
      var up := rest[..|rest| - 1];
      SameBelow(f, p, q, up);
      assert (p + rest)[..|p + rest| - 1] == p + up && (q + rest)[..|q + rest| - 1] == q + up;
    }
  }

  /** A path that passes an id twice can go round again and again. */
  lemma {:induction false} RepeatHasNoBottom(f: Forest, path: seq<nat>, i: nat, j: nat, n: nat) returns (q: seq<nat>)
    requires ListAt(f, path).Some? && 0 < i < j <= |path| && IdAt(f, path, i) == IdAt(f, path, j)
    ensures |q| >= n && ListAt(f, q).Some? && ListAt(f, q) == ListAt(f, path[..i])
  {
    PrefixLeads(f, path, i);
    PrefixLeads(f, path, j);
    if n == 0 {
      q := path[..i];
    } else {
      var r := RepeatHasNoBottom(f, path, i, j, n - 1);
      SameBelow(f, r, path[..i], path[i..j]);
      assert path[..i] + path[i..j] == path[..j];
      q := r + path[i..j];
    }
  }

  /** The depth of the forest is bounded if and only if no path from the top repeats an id. */
  lemma BottomIffNoRepeats(f: Forest)
    ensures (exists n: nat :: DepthAtMost(f, n)) <==> NoRepeats(f)
  {
    if NoRepeats(f) {
      forall path | ListAt(f, path).Some? ensures |path| <= |All(f)| {
        DepthBound(f, path);
      }
      assert DepthAtMost(f, |All(f)|);
    } else {
      var path :| Repeats(f, path);
      var i: nat, j: nat :| 0 < i < j <= |path| && IdAt(f, path, i) == IdAt(f, path, j);
      forall n: nat ensures !DepthAtMost(f, n) {
        var q := RepeatHasNoBottom(f, path, i, j, n + 1);
      }
    }
  }

  /** Unique ids never repeat on a path, whatever cycles the parent pointers make. */
  lemma UniqueIdsHaveBottom(f: Forest, topid: int)
    requires WellFormed(f, topid)
    ensures NoRepeats(f)
  {
    forall path ensures !Repeats(f, path) {
      if ListAt(f, path).Some? {
        forall i: nat, j: nat | 0 < i < j <= |path| ensures IdAt(f, path, i) != IdAt(f, path, j) {
          PlacesDiffer(f, topid, path, i, j);
        }
      }
    }
  }

  lemma PlacesDiffer(f: Forest, topid: int, path: seq<nat>, i: nat, j: nat)
    requires WellFormed(f, topid) && ListAt(f, path).Some? && 0 < i < j <= |path|
    ensures IdAt(f, path, i) != IdAt(f, path, j)
  {
    PrefixLeads(f, path, i);
    PrefixLeads(f, path, j);
    NodeParent(f, path[..i]);
    NodeParent(f, path[..j]);
    if IdAt(f, path, i) == IdAt(f, path, j) {
      SameIdSameNode(f, topid, NodeAt(f, path[..i]), NodeAt(f, path[..j]));
      OnePlace(f, topid, path[..i], path[..j]);
      assert false;
    }
  }

  // ----- the traversal -----

  /** The callbacks for the siblings at `path`, from the k-th on. */
  function Trace(f: Forest, path: seq<nat>, k: nat): seq<Event>
    requires NoRepeats(f) && ListAt(f, path).Some? && k <= |ListAt(f, path).value|
    decreases |All(f)| - |path|, |ListAt(f, path).value| - k
  {
    DepthBound(f, path);
    var list := ListAt(f, path).value;
    if k == |list| then []
    else
      ListAtSon(f, path, k);
      DepthBound(f, path + [k]);
      var v := list[k];
      var n := |Sons(f, v)|;
      [ForBefore(v, k, n), ForCurr(v, k, n)]
      + (if n > 0 then [CallBefore(v, k)] + Trace(f, path + [k], 0) + [CallAfter(v, k)] else [])
      + [ForAfter(v, k, n)] + Trace(f, path, k + 1)
  }
}
