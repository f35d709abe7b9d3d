/** The map the chains represent, and what taking a record off a list, rewriting it, and putting it on
    another does to that map. */
module DbMap {
  import opened DbCodec
  import opened DbImage
  import opened DbLists

  /** Keys and data by record number, and the lists. */
  datatype View = View(keys: seq<string>, datas: seq<string>, lists: seq<seq<nat>>)

  function Bucket(key: string): nat { 1 + Hash(key) }

  predicate Blank(s: string) {
    forall i :: 0 <= i < |s| ==> s[i] == SPACE
  }

  /** Position j of the key's chain is a record with that key. */
  ghost predicate Keeps(v: View, key: string, j: int, k: nat) {
    At(v.lists, Bucket(key), j, k) && k < |v.keys| && v.keys[k] == key
  }

  /** Every chain holds keys of its own hash, no key twice, and the free records are blanked. */
  ghost predicate ListsOk(v: View) {
    |v.lists| == HEADS && |v.keys| == |v.datas| && Disjoint(v.lists)
    && (forall l, j, k: nat :: At(v.lists, l, j, k) ==> k < |v.keys|)
    && (forall l, j, k: nat :: At(v.lists, l, j, k) && l > 0 ==> l == Bucket(v.keys[k]))
    && (forall key, j, k: nat, i, n: nat :: Keeps(v, key, j, k) && Keeps(v, key, i, n) ==> j == i)
    && forall j, k: nat :: At(v.lists, 0, j, k) ==> Blank(v.keys[k]) && Blank(v.datas[k])
  }

  /** No key on list l has a separator in it, so every record there can be read. */
  ghost predicate Clean(v: View, l: nat) {
    forall j, k: nat :: At(v.lists, l, j, k) && k < |v.keys| ==> SEP !in v.keys[k]
  }

  ghost predicate SpoiledFront(v: View, l: nat) {
    l < |v.lists| && |v.lists[l]| > 0 && v.lists[l][0] < |v.keys| && SEP in v.keys[v.lists[l][0]]
  }

  /** A key with a separator in it is the last that was put on its chain, and so in front. */
  ghost predicate FrontsOk(v: View) {
    forall l: nat :: l < |v.lists| ==> Clean(v, l) || SpoiledFront(v, l)
  }

  ghost predicate Represents(v: View, m: map<string, string>) {
    |v.keys| == |v.datas|
    && (forall key, j, k: nat :: Keeps(v, key, j, k) ==> key in m && m[key] == v.datas[k])
    && forall key :: key in m ==> Found(v, key)
  }

  ghost predicate Found(v: View, key: string) {
    exists j, k: nat :: Keeps(v, key, j, k)
  }

  /** A chain can be walked exactly when the map has no key with a separator on it. */
  ghost predicate CleanFor(m: map<string, string>, l: nat) {
    forall key :: key in m && Bucket(key) == l ==> SEP !in key
  }

  lemma CleanIff(v: View, m: map<string, string>, l: nat)
    requires ListsOk(v) && Represents(v, m) && 0 < l
    ensures Clean(v, l) <==> CleanFor(m, l)
  {
    if Clean(v, l) {
      forall key | key in m && Bucket(key) == l ensures SEP !in key {
        assert Found(v, key);
        var j, k: nat :| Keeps(v, key, j, k);
      }
    }
    if CleanFor(m, l) {
      forall j, k: nat | At(v.lists, l, j, k) && k < |v.keys| ensures SEP !in v.keys[k] {
        assert Keeps(v, v.keys[k], j, k);
      }
    }
  }

  lemma DropFronts(v: View, l: nat, j: nat)
    requires FrontsOk(v) && Clean(v, l) && l < |v.lists| && j < |v.lists[l]|
    ensures FrontsOk(v.(lists := Drop(v.lists, l, j))) && Clean(v.(lists := Drop(v.lists, l, j)), l)
  {
    var w := v.(lists := Drop(v.lists, l, j));
    forall m, i, k: nat | At(w.lists, m, i, k) ensures At(v.lists, m, Before(l, j, m, i), k) {
      DropAt(v.lists, l, j, m, i, k);
    }
    forall m: nat | m < |w.lists| ensures Clean(w, m) || SpoiledFront(w, m) {
      assert Clean(v, m) || SpoiledFront(v, m);
    }
  }

  lemma DropClean(v: View, l: nat, j: nat, m: nat)
    requires Clean(v, m) && l < |v.lists| && j < |v.lists[l]|
    ensures Clean(v.(lists := Drop(v.lists, l, j)), m)
  {
    forall i, k: nat | At(Drop(v.lists, l, j), m, i, k) ensures At(v.lists, m, Before(l, j, m, i), k) {
      DropAt(v.lists, l, j, m, i, k);
    }
  }

  lemma PushFronts(v: View, l: nat, n: nat)
    requires FrontsOk(v) && Clean(v, l) && l < |v.lists| && n < |v.keys|
    ensures FrontsOk(v.(lists := Push(v.lists, l, n)))
  {
    var w := v.(lists := Push(v.lists, l, n));
    forall m, i, k: nat | At(w.lists, m, i, k) ensures (m == l && k == n) || At(v.lists, m, if m == l then i - 1 else i, k) {
      PushAt(v.lists, l, n, m, i, k);
    }
    forall m: nat | m < |w.lists| ensures Clean(w, m) || SpoiledFront(w, m) {
      assert Clean(v, m) || SpoiledFront(v, m);
    }
  }

  /** What is on no list may be rewritten. */
  lemma RewrittenFronts(v: View, w: View)
    requires FrontsOk(v) && w.lists == v.lists && |w.keys| >= |v.keys|
    requires forall l, j, k: nat :: At(v.lists, l, j, k) ==> k < |v.keys| && w.keys[k] == v.keys[k]
    ensures FrontsOk(w) && forall l: nat :: Clean(v, l) ==> Clean(w, l)
  {
    forall m: nat | m < |w.lists| ensures Clean(w, m) || SpoiledFront(w, m) {
      assert Clean(v, m) || SpoiledFront(v, m);
      if SpoiledFront(v, m) { assert At(v.lists, m, 0, v.lists[m][0]); }
    }
  }

  lemma RemovedOk(v: View, l: nat, j: nat)
    requires ListsOk(v) && l < |v.lists| && j < |v.lists[l]|
    ensures ListsOk(v.(lists := Drop(v.lists, l, j))) && Unlisted(Drop(v.lists, l, j), v.lists[l][j])
  {
    var w := v.(lists := Drop(v.lists, l, j));
    DropDisjoint(v.lists, l, j);
    forall m, i, k: nat | At(w.lists, m, i, k) ensures At(v.lists, m, Before(l, j, m, i), k) {
      DropAt(v.lists, l, j, m, i, k);
    }
    forall key, a, k: nat, i, n: nat | Keeps(w, key, a, k) && Keeps(w, key, i, n) ensures a == i {
      assert Keeps(v, key, Before(l, j, Bucket(key), a), k) && Keeps(v, key, Before(l, j, Bucket(key), i), n);
    }
  }

  lemma Removed(v: View, l: nat, j: nat, m: map<string, string>)
    requires ListsOk(v) && Represents(v, m) && l < |v.lists| && j < |v.lists[l]|
    ensures At(v.lists, l, j, v.lists[l][j]) && v.lists[l][j] < |v.keys|
    ensures ListsOk(v.(lists := Drop(v.lists, l, j))) && Unlisted(Drop(v.lists, l, j), v.lists[l][j])
    ensures Represents(v.(lists := Drop(v.lists, l, j)), if l == 0 then m else m - {v.keys[v.lists[l][j]]})
  {
    RemovedOk(v, l, j);
    var n, w := v.lists[l][j], v.(lists := Drop(v.lists, l, j));
    assert At(v.lists, l, j, n);
    var gone := v.keys[n];
    var after := if l == 0 then m else m - {gone};
    forall key, i, k: nat | Keeps(w, key, i, k) ensures key in after && after[key] == v.datas[k] {
      DropAt(v.lists, l, j, Bucket(key), i, k);
      assert Keeps(v, key, Before(l, j, Bucket(key), i), k);
      if l > 0 && key == gone { assert Keeps(v, key, j, n); }
    }
    forall key | key in after ensures Found(w, key) {
      assert Found(v, key);
      var i, k: nat :| Keeps(v, key, i, k);
      var at := if Bucket(key) == l && i > j then i - 1 else i;
      DropAt(v.lists, l, j, Bucket(key), at, k);
      assert Keeps(w, key, at, k);
    }
  }

  /** What is on no list may be rewritten, and new records added. */
  lemma Rewritten(v: View, w: View, m: map<string, string>)
    requires ListsOk(v) && Represents(v, m) && w.lists == v.lists && |w.keys| == |w.datas| >= |v.keys|
    requires forall l, j, k: nat :: At(v.lists, l, j, k) && k < |v.keys| ==> w.keys[k] == v.keys[k] && w.datas[k] == v.datas[k]
    ensures ListsOk(w) && Represents(w, m)
  {
    forall key, j, k: nat ensures Keeps(w, key, j, k) <==> Keeps(v, key, j, k) {
    }
    forall key | key in m ensures Found(w, key) {
      assert Found(v, key);
      var j, k: nat :| Keeps(v, key, j, k);
      assert Keeps(w, key, j, k);
    }
  }

  lemma PushKeeps(v: View, l: nat, n: nat, key: string, j: int, k: nat)
    requires l < |v.lists|
    ensures Keeps(v.(lists := Push(v.lists, l, n)), key, j, k)
            <==> if Bucket(key) == l then (j == 0 && k == n && k < |v.keys| && v.keys[k] == key) || (j > 0 && Keeps(v, key, j - 1, k))
                 else Keeps(v, key, j, k)
  {
    PushAt(v.lists, l, n, Bucket(key), j, k);
  }

  lemma PushedFound(v: View, l: nat, n: nat, key: string)
    requires l < |v.lists| && Found(v, key)
    ensures Found(v.(lists := Push(v.lists, l, n)), key)
  {
    var j, k: nat :| Keeps(v, key, j, k);
    PushKeeps(v, l, n, key, if Bucket(key) == l then j + 1 else j, k);
  }

  /** A record put on the free list is out of the map. */
  lemma AddedFree(v: View, n: nat, m: map<string, string>)
    requires ListsOk(v) && Represents(v, m) && n < |v.keys| && Unlisted(v.lists, n) && Blank(v.keys[n]) && Blank(v.datas[n])
    ensures ListsOk(v.(lists := Push(v.lists, 0, n))) && Represents(v.(lists := Push(v.lists, 0, n)), m)
  {
    var w := v.(lists := Push(v.lists, 0, n));
    PushDisjoint(v.lists, 0, n);
    forall l, i, k: nat | At(w.lists, l, i, k) ensures (l == 0 && k == n) || At(v.lists, l, if l == 0 then i - 1 else i, k) {
      PushAt(v.lists, 0, n, l, i, k);
    }
    forall key, j, k: nat ensures Keeps(w, key, j, k) <==> Keeps(v, key, j, k) {
      PushKeeps(v, 0, n, key, j, k);
    }
    forall key | key in m ensures Found(w, key) {
      assert Found(v, key);
      PushedFound(v, 0, n, key);
    }
  }

  lemma AddedLiveOk(v: View, n: nat)
    requires ListsOk(v) && n < |v.keys| && Unlisted(v.lists, n) && !Found(v, v.keys[n])
    ensures ListsOk(v.(lists := Push(v.lists, Bucket(v.keys[n]), n)))
  {
    var l := Bucket(v.keys[n]);
    var w := v.(lists := Push(v.lists, l, n));
    PushDisjoint(v.lists, l, n);
    forall a, i, k: nat | At(w.lists, a, i, k) ensures (a == l && k == n) || At(v.lists, a, if a == l then i - 1 else i, k) {
      PushAt(v.lists, l, n, a, i, k);
    }
    forall key, a, k: nat, i, h: nat | Keeps(w, key, a, k) && Keeps(w, key, i, h) ensures a == i {
      PushKeeps(v, l, n, key, a, k);
      PushKeeps(v, l, n, key, i, h);
      assert (a == 0 && k == n) || Keeps(v, key, if Bucket(key) == l then a - 1 else a, k);
      assert (i == 0 && h == n) || Keeps(v, key, if Bucket(key) == l then i - 1 else i, h);
    }
  }

  /** A record put on the chain of its key, which was not in the map, adds it to the map. */
  lemma AddedLive(v: View, n: nat, m: map<string, string>)
    requires ListsOk(v) && Represents(v, m) && n < |v.keys| && Unlisted(v.lists, n) && v.keys[n] !in m
    ensures ListsOk(v.(lists := Push(v.lists, Bucket(v.keys[n]), n)))
    ensures Represents(v.(lists := Push(v.lists, Bucket(v.keys[n]), n)), m[v.keys[n] := v.datas[n]])
  {
    var added, l := v.keys[n], Bucket(v.keys[n]);
    var w, after := v.(lists := Push(v.lists, l, n)), m[added := v.datas[n]];
    assert forall j, k: nat :: !Keeps(v, added, j, k);
    AddedLiveOk(v, n);
    forall key, j, k: nat | Keeps(w, key, j, k) ensures key in after && after[key] == v.datas[k] {
      PushKeeps(v, l, n, key, j, k);
      assert k == n || Keeps(v, key, if Bucket(key) == l then j - 1 else j, k);
      assert key == added ==> k == n;
    }
    forall key | key in after ensures Found(w, key) {
      if key == added {
        PushKeeps(v, l, n, key, 0, n);
        assert Keeps(w, key, 0, n);
      } else {
        assert Found(v, key);
        PushedFound(v, l, n, key);
      }
    }
  }

  /** Overwriting the data of a live record changes that key's value. */
  lemma DataChanged(v: View, l: nat, j: nat, data: string, m: map<string, string>)
    requires ListsOk(v) && Represents(v, m) && 0 < l < |v.lists| && j < |v.lists[l]|
    ensures v.lists[l][j] < |v.keys|
    ensures var w := v.(datas := v.datas[v.lists[l][j] := data]);
            ListsOk(w) && Represents(w, m[v.keys[v.lists[l][j]] := data])
  {
    var n := v.lists[l][j];
    assert At(v.lists, l, j, n);
    var w, key := v.(datas := v.datas[n := data]), v.keys[n];
    assert Keeps(v, key, j, n);
    forall k, i, a: nat ensures Keeps(w, k, i, a) <==> Keeps(v, k, i, a) {
    }
    forall k | k in m[key := data] ensures Found(w, k) {
      assert k == key || Found(v, k);
      var i, a: nat :| Keeps(v, k, i, a);
      assert Keeps(w, k, i, a);
    }
    forall k, i, a: nat | Keeps(w, k, i, a) ensures k in m[key := data] && m[key := data][k] == w.datas[a] {
      assert Keeps(v, k, i, a);
      assert a == n ==> k == key;
      assert k == key ==> i == j;
    }
  }
}
