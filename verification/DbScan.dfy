/** The sequential scan: from any record on, the next one whose key is not all blank; and what a whole
    scan lists. */
module DbScan {
  import opened DbCodec
  import opened DbImage
  import opened DbLists
  import opened DbMap
  import opened DbState

  /** The first record from k on that a scan does not skip; the number of records if there is none. */
  function NextAt(recs: seq<IdxRec>, k: nat): (i: nat)
    requires k <= |recs|
    ensures k <= i <= |recs| && (i < |recs| ==> !Blank(recs[i].key))
    decreases |recs| - k
  {
    if k == |recs| || !Blank(recs[k].key) then k else NextAt(recs, k + 1)
  }

  datatype Pair = Pair(key: string, data: string)

  /** What repeated db_nextrec calls return once the first k records are passed. */
  function Listing(recs: seq<IdxRec>, datas: seq<string>, k: nat): seq<Pair>
    requires k <= |recs| == |datas|
    decreases |recs| - k
  {
    var i := NextAt(recs, k);
    if i == |recs| then [] else [Pair(recs[i].key, datas[i])] + Listing(recs, datas, i + 1)
  }

  lemma ListingFrom(recs: seq<IdxRec>, datas: seq<string>, k: nat, before: seq<Pair>)
    requires k <= |recs| == |datas|
    ensures var i := NextAt(recs, k);
            before + Listing(recs, datas, k)
            == if i == |recs| then before
               else (before + [Pair(recs[i].key, datas[i])]) + Listing(recs, datas, i + 1)
  {
  }

  /** The record a pair comes from. */
  ghost predicate From(recs: seq<IdxRec>, datas: seq<string>, i: nat, p: Pair) {
    i < |recs| && i < |datas| && !Blank(recs[i].key) && p == Pair(recs[i].key, datas[i])
  }

  /** Pairs come from records in file order, starting at k. */
  ghost predicate InFileOrder(recs: seq<IdxRec>, datas: seq<string>, k: nat, pairs: seq<Pair>, at: seq<nat>) {
    |at| == |pairs|
    && (forall a :: 0 <= a < |pairs| ==> k <= at[a] && From(recs, datas, at[a], pairs[a]))
    && forall a, b :: 0 <= a < b < |at| ==> at[a] < at[b]
  }

  lemma NothingInFileOrder(recs: seq<IdxRec>, datas: seq<string>, k: nat)
    ensures InFileOrder(recs, datas, k, [], [])
  {
  }

  lemma {:induction false} ListingInOrder(recs: seq<IdxRec>, datas: seq<string>, k: nat) returns (at: seq<nat>)
    requires k <= |recs| == |datas|
    ensures InFileOrder(recs, datas, k, Listing(recs, datas, k), at)
    decreases |recs| - k
  {
    hide InFileOrder, Blank, NextAt;
    NothingInFileOrder(recs, datas, k);
    var i := NextAt(recs, k);
    if i == |recs| {
      at := [];
    } else {
      var rest := ListingInOrder(recs, datas, i + 1);
      at := [i] + rest;
      OneMore(recs, datas, k, i, Listing(recs, datas, i + 1), rest);
    }
  }

  lemma OneMore(recs: seq<IdxRec>, datas: seq<string>, k: nat, i: nat, pairs: seq<Pair>, at: seq<nat>)
    requires k <= i < |recs| == |datas| && !Blank(recs[i].key) && InFileOrder(recs, datas, i + 1, pairs, at)
    ensures InFileOrder(recs, datas, k, [Pair(recs[i].key, datas[i])] + pairs, [i] + at)
  {
    hide Blank;
    var p, t := [Pair(recs[i].key, datas[i])] + pairs, [i] + at;
    forall a | 0 <= a < |p| ensures k <= t[a] && From(recs, datas, t[a], p[a]) {
      assert a > 0 ==> From(recs, datas, at[a - 1], pairs[a - 1]);
    }
  }

  lemma {:induction false} NextAtSkips(recs: seq<IdxRec>, k: nat, i: nat)
    requires k <= i < |recs| && !Blank(recs[i].key)
    ensures NextAt(recs, k) <= i
    decreases |recs| - k
  {
    if Blank(recs[k].key) { NextAtSkips(recs, k + 1, i); }
  }

  lemma {:induction false} ListingHas(recs: seq<IdxRec>, datas: seq<string>, k: nat, i: nat)
    requires k <= i < |recs| == |datas| && !Blank(recs[i].key)
    ensures Pair(recs[i].key, datas[i]) in Listing(recs, datas, k)
    decreases |recs| - k
  {
    NextAtSkips(recs, k, i);
    if NextAt(recs, k) < i { ListingHas(recs, datas, NextAt(recs, k) + 1, i); }
  }

  /** A record with a key that is not blank is on the chain of that key. */
  lemma NotBlankIsLive(db: Db, k: nat) returns (j: nat)
    requires Inv(db) && k < |db.x.recs| && !Blank(db.x.recs[k].key)
    ensures Keeps(ViewOf(db), db.x.recs[k].key, j, k)
  {
    assert Listed(db.lists, k);
    var l, i :| At(db.lists, l, i, k);
    assert ViewOf(db).keys[k] == db.x.recs[k].key;
    j := i;
  }

  /** A whole scan lists each key that is not all blank once, with its data, in file order. */
  lemma ScanIsExact(db: Db, m: map<string, string>)
    requires Inv(db) && IsMap(db, m)
    ensures |db.datas| == |db.x.recs|
    ensures var pairs := Listing(db.x.recs, db.datas, 0);
            (forall key, data :: Pair(key, data) in pairs <==> !Blank(key) && key in m && m[key] == data)
            && (forall a, b :: 0 <= a < b < |pairs| ==> pairs[a].key != pairs[b].key)
            && exists at :: InFileOrder(db.x.recs, db.datas, 0, pairs, at)
  {
    hide Fits, Linked, Covers, ListsOk, ExtentsOk, Listing;
    ListCount(db);
    SameCount(db);
    var recs, datas, v := db.x.recs, db.datas, ViewOf(db);
    var pairs := Listing(recs, datas, 0);
    var at := ListingInOrder(recs, datas, 0);
    forall a | 0 <= a < |pairs| ensures !Blank(pairs[a].key) && pairs[a].key in m && m[pairs[a].key] == pairs[a].data {
      assert From(recs, datas, at[a], pairs[a]);
      var j := NotBlankIsLive(db, at[a]);
    }
    forall key, data | !Blank(key) && key in m && m[key] == data ensures Pair(key, data) in pairs {
      assert Found(v, key);
      var j, k: nat :| Keeps(v, key, j, k);
      ListingHas(recs, datas, 0, k);
    }
    forall a, b | 0 <= a < b < |pairs| ensures pairs[a].key != pairs[b].key {
      assert From(recs, datas, at[a], pairs[a]) && From(recs, datas, at[b], pairs[b]);
      OneRecordPerKey(db, at[a], at[b]);
    }
  }

  // ----- keys with a separator in them -----

  /** The first k records can all be read. */
  ghost predicate Parses(recs: seq<IdxRec>, k: nat) {
    k <= |recs| && forall i :: 0 <= i < k ==> SEP !in recs[i].key
  }

  lemma NothingPassed(recs: seq<IdxRec>)
    ensures Parses(recs, 0)
  {
  }

  lemma SeparatorIsNotBlank(recs: seq<IdxRec>, n: nat)
    requires n <= |recs|
    ensures n < |recs| && SEP in recs[n].key ==> NextAt(recs, n) == n
  {
  }

  /** What a scan skips it can read. */
  lemma {:induction false} PassedParse(recs: seq<IdxRec>, k: nat)
    requires Parses(recs, k)
    ensures Parses(recs, NextAt(recs, k))
    ensures NextAt(recs, k) < |recs| && SEP !in recs[NextAt(recs, k)].key ==> Parses(recs, NextAt(recs, k) + 1)
    decreases |recs| - k
  {
    if k < |recs| && Blank(recs[k].key) { PassedParse(recs, k + 1); }
  }

  /** A record that cannot be read is one of a key of the map. */
  lemma ScanMeets(db: Db, m: map<string, string>, i: nat)
    requires Inv(db) && IsMap(db, m) && i < |db.x.recs| && SEP in db.x.recs[i].key
    ensures db.x.recs[i].key in m && exists key :: key in m && SEP in key
  {
    var j := NotBlankIsLive(db, i);
  }

  lemma AllParse(db: Db, m: map<string, string>)
    requires Inv(db) && IsMap(db, m) && Parses(db.x.recs, |db.x.recs|)
    ensures forall key :: key in m ==> SEP !in key
  {
    forall key | key in m ensures SEP !in key {
      assert Found(ViewOf(db), key);
      var j, k: nat :| Keeps(ViewOf(db), key, j, k);
    }
  }

  lemma SameCount(db: Db)
    requires Inv(db)
    ensures |db.x.recs| == |db.datas|
  {
  }

  lemma OneRecordPerKey(db: Db, a: nat, b: nat)
    requires Inv(db) && a < |db.x.recs| && b < |db.x.recs| && a != b
    requires !Blank(db.x.recs[a].key) && !Blank(db.x.recs[b].key)
    ensures db.x.recs[a].key != db.x.recs[b].key
  {
    var i := NotBlankIsLive(db, a);
    var j := NotBlankIsLive(db, b);
  }
}
