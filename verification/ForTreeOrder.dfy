/** In which order siblings stand: that of the array, position by position. */
module ForTreeOrder {
  import opened ForTree

  predicate Matches(v: Node, pid: int, same: bool) { (v.pid == pid) == same }

  /** The positions, rising, of exactly the nodes of the array whose parent is pid, or is not. */
  ghost predicate Positions(arr: seq<Node>, pid: int, same: bool, at: seq<nat>) {
    (forall i :: 0 <= i < |at| ==> at[i] < |arr| && Matches(arr[at[i]], pid, same))
    && (forall i, j :: 0 <= i < j < |at| ==> at[i] < at[j])
    && forall p: nat :: p < |arr| && Matches(arr[p], pid, same) ==> p in at
  }

  ghost predicate Selects(arr: seq<Node>, at: seq<nat>, list: seq<Node>) {
    |list| == |at| && forall i :: 0 <= i < |at| ==> at[i] < |arr| && list[i] == arr[at[i]]
  }

  /** The list is what stands at those positions, in their order. */
  ghost predicate InArrayOrder(arr: seq<Node>, pid: int, same: bool, list: seq<Node>) {
    exists at :: Positions(arr, pid, same, at) && Selects(arr, at, list)
  }

  function Where(arr: seq<Node>, pid: int, same: bool): seq<nat> {
    if arr == [] then []
    else
      var n := |arr| - 1;
      Where(arr[..n], pid, same) + if Matches(arr[n], pid, same) then [n] else []
  }

  lemma OneMore(arr: seq<Node>, pid: int, same: bool, at: seq<nat>)
    requires arr != [] && Positions(arr[..|arr| - 1], pid, same, at)
    ensures var n: nat := |arr| - 1; Positions(arr, pid, same, at + if Matches(arr[n], pid, same) then [n] else [])
  {
    var n: nat := |arr| - 1;
    var all := at + if Matches(arr[n], pid, same) then [n] else [];
    assert forall i :: 0 <= i < |at| ==> all[i] == at[i] && arr[..n][at[i]] == arr[at[i]];
    forall p: nat | p < |arr| && Matches(arr[p], pid, same) ensures p in all {
      if p < n { assert arr[..n][p] == arr[p]; } else { assert all[|at|] == n; }
    }
  }

  function Kept(nodes: seq<Node>, id: int, same: bool): seq<Node> {
    if same then WithParent(nodes, id) else WithoutParent(nodes, id)
  }

  lemma SelectsMore(arr: seq<Node>, at: seq<nat>, list: seq<Node>, more: bool)
    requires arr != [] && Selects(arr[..|arr| - 1], at, list)
    ensures var n: nat := |arr| - 1;
            Selects(arr, at + if more then [n] else [], list + if more then [arr[n]] else [])
  {
    assert forall i :: 0 <= i < |at| ==> arr[..|arr| - 1][at[i]] == arr[at[i]];
  }

  lemma {:induction false} WhereIs(arr: seq<Node>, pid: int, same: bool)
    ensures Positions(arr, pid, same, Where(arr, pid, same)) && Selects(arr, Where(arr, pid, same), Kept(arr, pid, same))
  {
    hide Positions, Selects;
    if arr == [] {
      NothingSelected(pid, same);
    } else {
      var before, n := arr[..|arr| - 1], |arr| - 1;
      WhereIs(before, pid, same);
      OneMore(arr, pid, same, Where(before, pid, same));
      SelectsMore(arr, Where(before, pid, same), Kept(before, pid, same), Matches(arr[n], pid, same));
    }
  }

  lemma NothingSelected(pid: int, same: bool)
    ensures Positions([], pid, same, []) && Selects([], [], [])
  {
  }

  /** The constructor's two lists and the sons of a node, by position in the array. */
  lemma SplitInOrder(arr: seq<Node>, topid: int)
    ensures InArrayOrder(arr, topid, true, Split(arr, topid).father)
    ensures InArrayOrder(arr, topid, false, Split(arr, topid).children)
  {
    WhereIs(arr, topid, true);
    WhereIs(arr, topid, false);
  }

  lemma SonsInOrder(nodes: seq<Node>, id: int)
    ensures InArrayOrder(nodes, id, true, WithParent(nodes, id))
  {
    WhereIs(nodes, id, true);
  }

  /** Looking for sons among the nodes that are not at the top finds those of the whole array. */
  lemma {:induction false} SonsInArray(arr: seq<Node>, topid: int, id: int)
    ensures WithParent(WithoutParent(arr, topid), id) == if id == topid then [] else WithParent(arr, id)
  {
    if arr != [] {
      var n := |arr| - 1;
      SonsInArray(arr[..n], topid, id);
      var others, v := WithoutParent(arr[..n], topid), arr[n];
      if v.pid != topid { assert (others + [v])[..|others|] == others; } else { assert others + [] == others; }
    }
  }

  /** Whose sons stand at a path. */
  function ParentId(f: Forest, topid: int, path: seq<nat>): int
    requires ListAt(f, path).Some?
  {
    if path == [] then topid else NodeAt(f, path).id
  }

  lemma ListInArray(arr: seq<Node>, topid: int, path: seq<nat>)
    requires ListAt(Split(arr, topid), path).Some?
    ensures var f := Split(arr, topid); var id := ParentId(f, topid, path);
            ListAt(f, path).value == if path != [] && id == topid then [] else WithParent(arr, id)
  {
    if path != [] { SonsInArray(arr, topid, NodeAt(Split(arr, topid), path).id); }
  }

  /** Where in the array the node of a path stands. */
  function PlaceInArray(arr: seq<Node>, topid: int, path: seq<nat>): (p: nat)
    requires path != [] && ListAt(Split(arr, topid), path).Some?
    ensures p < |arr| && arr[p] == NodeAt(Split(arr, topid), path)
    ensures ListAt(Split(arr, topid), path[..|path| - 1]).Some?
  {
    var f, up := Split(arr, topid), path[..|path| - 1];
    ListInArray(arr, topid, up);
    var id := ParentId(f, topid, up);
    WhereIs(arr, id, true);
    Where(arr, id, true)[path[|path| - 1]]
  }

  /** Of two siblings the one of smaller index stands earlier in the array. */
  lemma SiblingsRise(arr: seq<Node>, topid: int, p: seq<nat>, q: seq<nat>)
    requires p != [] && q != [] && ListAt(Split(arr, topid), p).Some? && ListAt(Split(arr, topid), q).Some?
    requires p[..|p| - 1] == q[..|q| - 1] && p[|p| - 1] < q[|q| - 1]
    ensures PlaceInArray(arr, topid, p) < PlaceInArray(arr, topid, q)
  {
    var up := p[..|p| - 1];
    ListInArray(arr, topid, up);
    WhereIs(arr, ParentId(Split(arr, topid), topid, up), true);
  }

  /** Every node of the array with the id of a place's node as its parent has a place below it. */
  lemma SonHasPlace(arr: seq<Node>, topid: int, path: seq<nat>, p: nat) returns (q: seq<nat>)
    requires ListAt(Split(arr, topid), path).Some? && p < |arr|
    requires arr[p].pid == ParentId(Split(arr, topid), topid, path) && (path != [] ==> arr[p].pid != topid)
    ensures q != [] && ListAt(Split(arr, topid), q).Some? && q[..|q| - 1] == path && PlaceInArray(arr, topid, q) == p
  {
    var f, id := Split(arr, topid), arr[p].pid;
    ListInArray(arr, topid, path);
    WhereIs(arr, id, true);
    assert Matches(arr[p], id, true);
    var k: nat :| k < |Where(arr, id, true)| && Where(arr, id, true)[k] == p;
    ListAtSon(f, path, k);
    q := path + [k];
  }
}
