/** The linked lists of the index: list 0 is the free list, list 1 + h the chain of hash h.  They are
    given as sequences of record numbers, and the pointers of the file have to match. */
module DbLists {
  import opened DbImage

  ghost predicate InRange(x: Index, lists: seq<seq<nat>>) {
    |x.heads| == |lists| == HEADS
    && forall l, j :: 0 <= l < |lists| && 0 <= j < |lists[l]| ==> lists[l][j] < |x.recs|
  }

  /** The pointer that leads to the j-th record of a list, 0 past its end. */
  ghost function PtrTo(x: Index, list: seq<nat>, j: nat): nat
    requires j <= |list| && (j < |list| ==> list[j] < |x.recs|)
  {
    if j < |list| then Off(x.recs, list[j]) else 0
  }

  /** The field that pointer is kept in. */
  ghost function SlotOf(lists: seq<seq<nat>>, l: nat, j: nat): Slot
    requires l < |lists| && j <= |lists[l]|
  {
    if j == 0 then Head(l) else Next(lists[l][j - 1])
  }

  ghost predicate LinkAt(x: Index, lists: seq<seq<nat>>, l: nat, j: nat)
    requires InRange(x, lists) && l < |lists| && j <= |lists[l]|
  {
    PtrAt(x, SlotOf(lists, l, j)) == PtrTo(x, lists[l], j)
  }

  /** Following the pointers from any head visits exactly that list's records, in order, and ends. */
  ghost predicate Linked(x: Index, lists: seq<seq<nat>>) {
    InRange(x, lists)
    && forall l: nat, j: nat {:trigger LinkAt(x, lists, l, j)} :: l < |lists| && j <= |lists[l]| ==> LinkAt(x, lists, l, j)
  }

  ghost predicate At(lists: seq<seq<nat>>, l: int, j: int, k: nat) {
    0 <= l < |lists| && 0 <= j < |lists[l]| && lists[l][j] == k
  }

  /** No record is on two lists, or twice on one. */
  ghost predicate Disjoint(lists: seq<seq<nat>>) {
    forall l, j, m, i, k: nat :: At(lists, l, j, k) && At(lists, m, i, k) ==> l == m && j == i
  }

  ghost predicate Listed(lists: seq<seq<nat>>, k: nat) {
    exists l, j :: At(lists, l, j, k)
  }

  /** Every record is on some list. */
  ghost predicate Covers(lists: seq<seq<nat>>, n: nat) {
    forall k: nat :: k < n ==> Listed(lists, k)
  }

  ghost predicate Unlisted(lists: seq<seq<nat>>, k: nat) {
    forall l, j :: !At(lists, l, j, k)
  }

  ghost function Drop(lists: seq<seq<nat>>, l: nat, j: nat): seq<seq<nat>>
    requires l < |lists| && j < |lists[l]|
  {
    lists[l := lists[l][..j] + lists[l][j + 1..]]
  }

  ghost function Push(lists: seq<seq<nat>>, l: nat, k: nat): seq<seq<nat>>
    requires l < |lists|
  {
    lists[l := [k] + lists[l]]
  }

  // ----- membership -----

  /** Where a position of the shortened lists comes from. */
  ghost function Before(l: nat, j: nat, m: int, i: int): int {
    if m == l && i >= j then i + 1 else i
  }

  lemma DropAt(lists: seq<seq<nat>>, l: nat, j: nat, m: int, i: int, k: nat)
    requires l < |lists| && j < |lists[l]|
    ensures At(Drop(lists, l, j), m, i, k) <==> At(lists, m, Before(l, j, m, i), k) && 0 <= i
  {
  }

  lemma DropDisjoint(lists: seq<seq<nat>>, l: nat, j: nat)
    requires l < |lists| && j < |lists[l]| && Disjoint(lists)
    ensures Disjoint(Drop(lists, l, j)) && Unlisted(Drop(lists, l, j), lists[l][j])
  {
    var d := Drop(lists, l, j);
    forall a, b, m, i, k: nat | At(d, a, b, k) && At(d, m, i, k) ensures a == m && b == i {
      DropAt(lists, l, j, a, b, k);
      DropAt(lists, l, j, m, i, k);
    }
    forall m, i ensures !At(d, m, i, lists[l][j]) {
      DropAt(lists, l, j, m, i, lists[l][j]);
      assert At(lists, l, j, lists[l][j]);
    }
  }

  lemma DropCovers(lists: seq<seq<nat>>, l: nat, j: nat, n: nat)
    requires l < |lists| && j < |lists[l]| && Covers(lists, n)
    ensures forall k: nat :: k < n && k != lists[l][j] ==> Listed(Drop(lists, l, j), k)
  {
    forall k: nat | k < n && k != lists[l][j] ensures Listed(Drop(lists, l, j), k) {
      assert Listed(lists, k);
      var m, i :| At(lists, m, i, k);
      var at := if m == l && i > j then i - 1 else i;
      DropAt(lists, l, j, m, at, k);
      assert At(Drop(lists, l, j), m, at, k);
    }
  }

  lemma PushAt(lists: seq<seq<nat>>, l: nat, n: nat, m: int, i: int, k: nat)
    requires l < |lists|
    ensures At(Push(lists, l, n), m, i, k)
            <==> if m == l then (i == 0 && k == n) || (i > 0 && At(lists, m, i - 1, k)) else At(lists, m, i, k)
  {
  }

  lemma PushDisjoint(lists: seq<seq<nat>>, l: nat, n: nat)
    requires l < |lists| && Disjoint(lists) && Unlisted(lists, n)
    ensures Disjoint(Push(lists, l, n))
  {
    var p := Push(lists, l, n);
    forall a, b, m, i, k: nat | At(p, a, b, k) && At(p, m, i, k) ensures a == m && b == i {
      PushAt(lists, l, n, a, b, k);
      PushAt(lists, l, n, m, i, k);
    }
  }

  lemma PushCovers(lists: seq<seq<nat>>, l: nat, n: nat, count: nat)
    requires l < |lists| && forall k: nat :: k < count && k != n ==> Listed(lists, k)
    ensures Covers(Push(lists, l, n), count)
  {
    var p := Push(lists, l, n);
    PushAt(lists, l, n, l, 0, n);
    forall k: nat | k < count ensures Listed(p, k) {
      if k == n {
        assert At(p, l, 0, k);
      } else {
        assert Listed(lists, k);
        var m, i :| At(lists, m, i, k);
        var at := if m == l then i + 1 else i;
        PushAt(lists, l, n, m, at, k);
        assert At(p, m, at, k);
      }
    }
  }

  // ----- unlinking -----

  /** The fields that list positions are kept in differ when the positions do. */
  lemma SlotsDiffer(lists: seq<seq<nat>>, l: nat, j: nat, m: nat, i: nat)
    requires Disjoint(lists) && l < |lists| && m < |lists| && j <= |lists[l]| && i <= |lists[m]|
    ensures SlotOf(lists, l, j) == SlotOf(lists, m, i) ==> l == m && j == i
  {
    if j > 0 && i > 0 && lists[l][j - 1] == lists[m][i - 1] {
      assert At(lists, l, j - 1, lists[l][j - 1]) && At(lists, m, i - 1, lists[l][j - 1]);
    }
  }

  lemma SetPtrOffs(x: Index, s: Slot, p: nat, k: nat)
    requires SlotIn(x, s) && k <= |x.recs|
    ensures |SetPtr(x, s, p).recs| == |x.recs| && Off(SetPtr(x, s, p).recs, k) == Off(x.recs, k)
  {
    OffsStay(x.recs, SetPtr(x, s, p).recs, k);
  }

  /** Copying a record's next over the pointer that leads to it takes it off its list. */
  lemma Unlink(x: Index, lists: seq<seq<nat>>, l: nat, j: nat)
    requires Linked(x, lists) && Disjoint(lists) && l < |lists| && j < |lists[l]|
    ensures SlotIn(x, SlotOf(lists, l, j))
    ensures Linked(SetPtr(x, SlotOf(lists, l, j), x.recs[lists[l][j]].next), Drop(lists, l, j))
  {
    var k, s, d := lists[l][j], SlotOf(lists, l, j), Drop(lists, l, j);
    var y := SetPtr(x, s, x.recs[k].next);
    assert LinkAt(x, lists, l, j + 1);
    forall m: nat, i: nat | m < |d| && i <= |d[m]| ensures LinkAt(y, d, m, i) {
      UnlinkAt(x, lists, l, j, m, i);
    }
  }

  lemma UnlinkAt(x: Index, lists: seq<seq<nat>>, l: nat, j: nat, m: nat, i: nat)
    requires Linked(x, lists) && Disjoint(lists) && l < |lists| && j < |lists[l]|
    requires LinkAt(x, lists, l, j + 1) && SlotIn(x, SlotOf(lists, l, j))
    requires m < |lists| && i <= |Drop(lists, l, j)[m]|
    ensures var y := SetPtr(x, SlotOf(lists, l, j), x.recs[lists[l][j]].next);
            InRange(y, Drop(lists, l, j)) && LinkAt(y, Drop(lists, l, j), m, i)
  {
    var k, s, d := lists[l][j], SlotOf(lists, l, j), Drop(lists, l, j);
    var y := SetPtr(x, s, x.recs[k].next);
    var was: nat := if m == l && i > j then i + 1 else i;
    if i < |d[m]| { SetPtrOffs(x, s, x.recs[k].next, d[m][i]); }
    if m == l && i == j {
    } else {
      assert LinkAt(x, lists, m, was);
      SlotsDiffer(lists, l, j, m, was);
    }
  }

  // ----- linking in -----

  /** y is x except in records that are on none of the lists, which may be new. */
  ghost predicate SameLinks(x: Index, y: Index, lists: seq<seq<nat>>) {
    y.heads == x.heads && |y.recs| >= |x.recs|
    && (forall k :: 0 <= k < |x.recs| ==> RecLen(y.recs[k]) == RecLen(x.recs[k]))
    && forall l, j, k: nat :: At(lists, l, j, k) && k < |x.recs| ==> y.recs[k].next == x.recs[k].next
  }

  /** A record on no list whose next is a list's head goes to the front of that list when the head
      is pointed at it. */
  lemma LinkIn(x: Index, y: Index, lists: seq<seq<nat>>, l: nat, n: nat)
    requires Linked(x, lists) && SameLinks(x, y, lists) && l < |lists|
    requires n < |y.recs| && Unlisted(lists, n) && y.recs[n].next == x.heads[l]
    ensures Linked(SetPtr(y, Head(l), Off(y.recs, n)), Push(lists, l, n))
  {
    var z, p := SetPtr(y, Head(l), Off(y.recs, n)), Push(lists, l, n);
    forall m: nat, i: nat | m < |p| && i <= |p[m]| ensures LinkAt(z, p, m, i) {
      LinkInAt(x, y, lists, l, n, m, i);
    }
  }

  lemma LinkInAt(x: Index, y: Index, lists: seq<seq<nat>>, l: nat, n: nat, m: nat, i: nat)
    requires Linked(x, lists) && SameLinks(x, y, lists) && l < |lists|
    requires n < |y.recs| && Unlisted(lists, n) && y.recs[n].next == x.heads[l]
    requires m < |lists| && i <= |Push(lists, l, n)[m]|
    ensures var z := SetPtr(y, Head(l), Off(y.recs, n));
            InRange(z, Push(lists, l, n)) && LinkAt(z, Push(lists, l, n), m, i)
  {
    var z, p := SetPtr(y, Head(l), Off(y.recs, n)), Push(lists, l, n);
    if m == l && i == 0 {
    } else {
      var was: nat := if m == l then i - 1 else i;
      assert LinkAt(x, lists, m, was);
      if was < |lists[m]| { OffsStay(x.recs, y.recs, lists[m][was]); }
      if was > 0 { assert At(lists, m, was - 1, lists[m][was - 1]); }
    }
  }
}
