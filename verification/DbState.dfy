/** A database as its index, its data and its lists; what deleting, appending, reusing and overwriting
    make of one; and that each keeps it well formed and does to its map what it should. */
module DbState {
  import opened Commands
  import opened DbCodec
  import opened DbImage
  import opened DbLists
  import opened DbMap

  datatype Db = Db(x: Index, datas: seq<string>, lists: seq<seq<nat>>)

  function Keys(recs: seq<IdxRec>): seq<string> {
    seq(|recs|, k requires 0 <= k < |recs| => recs[k].key)
  }

  function ViewOf(db: Db): View {
    View(Keys(db.x.recs), db.datas, db.lists)
  }

  ghost predicate ExtentAt(recs: seq<IdxRec>, datas: seq<string>, k: nat)
    requires k < |recs| && k < |datas|
  {
    recs[k].datoff == DataOff(datas, k) && recs[k].datlen == |datas[k]| + 1
  }

  /** Record k's extent is the k-th block of the data file. */
  ghost predicate ExtentsOk(recs: seq<IdxRec>, datas: seq<string>) {
    |recs| == |datas| && forall k: nat :: k < |recs| ==> ExtentAt(recs, datas, k)
  }

  ghost predicate Inv(db: Db) {
    Fits(db.x) && Linked(db.x, db.lists) && Covers(db.lists, |db.x.recs|) && ExtentsOk(db.x.recs, db.datas)
    && ListsOk(ViewOf(db)) && FrontsOk(ViewOf(db))
  }

  ghost predicate IsMap(db: Db, m: map<string, string>) {
    Represents(ViewOf(db), m)
  }

  /** What db_open writes into a new index file. */
  function Empty(): Db {
    Db(Index(seq(HEADS, i => 0), []), [], seq(HEADS, i => []))
  }

  lemma EmptyOk()
    ensures Inv(Empty()) && IsMap(Empty(), map[])
  {
    var db := Empty();
    forall l: nat, j: nat | l < |db.lists| && j <= |db.lists[l]| ensures LinkAt(db.x, db.lists, l, j) {
    }
  }

  /** What db_open writes, and nothing in the data file, is the empty database. */
  lemma PrintEmpty()
    ensures PrintIndex(Empty().x) == Flatten(seq(HEADS, k => Field(0, PTR_SZ))) + [NEWLINE]
    ensures PrintData(Empty().datas) == ""
  {
    var b := Blocks(Empty().x);
    assert |b| == HEADS + 1 && b[HEADS] == [NEWLINE];
    assert b[..HEADS] == seq(HEADS, k => Field(0, PTR_SZ));
    assert DataBlocks(Empty().datas) == [];
  }

  // ----- shared facts -----

  /** What a walk along the key's chain up to position n says about the map. */
  lemma FoundOrNot(db: Db, m: map<string, string>, key: string, n: nat)
    requires Inv(db) && IsMap(db, m) && n <= |db.lists[Bucket(key)]|
    requires forall i :: 0 <= i < n ==> db.x.recs[db.lists[Bucket(key)][i]].key != key
    ensures n == |db.lists[Bucket(key)]| ==> key !in m
    ensures n < |db.lists[Bucket(key)]| && db.x.recs[db.lists[Bucket(key)][n]].key == key ==>
              Keeps(ViewOf(db), key, n, db.lists[Bucket(key)][n]) && key in m && m[key] == db.datas[db.lists[Bucket(key)][n]]
  {
    var l := Bucket(key);
    if n < |db.lists[l]| && db.x.recs[db.lists[l][n]].key == key {
      assert Keeps(ViewOf(db), key, n, db.lists[l][n]);
    }
    if n == |db.lists[l]| {
      assert forall j, k: nat :: !Keeps(ViewOf(db), key, j, k);
      assert !Found(ViewOf(db), key);
    }
  }

  /** A record that some pointer leads to lies where a pointer can reach. */
  lemma ListedReachable(db: Db, l: nat, j: nat)
    requires Fits(db.x) && Linked(db.x, db.lists) && l < |db.lists| && j < |db.lists[l]|
    ensures db.lists[l][j] < |db.x.recs| && 0 < Off(db.x.recs, db.lists[l][j]) <= PTR_MAX
    ensures SlotIn(db.x, SlotOf(db.lists, l, j)) && PtrAt(db.x, SlotOf(db.lists, l, j)) == Off(db.x.recs, db.lists[l][j])
  {
    assert LinkAt(db.x, db.lists, l, j);
  }

  lemma SetPtrFits(x: Index, s: Slot, p: nat)
    requires Fits(x) && SlotIn(x, s) && p <= PTR_MAX
    ensures Fits(SetPtr(x, s, p)) && Keys(SetPtr(x, s, p).recs) == Keys(x.recs)
  {
  }

  lemma SameText(r: IdxRec, next: nat, key: string)
    requires RecFits(r) && |key| == |r.key| && next <= PTR_MAX
    ensures RecFits(IdxRec(next, key, r.datoff, r.datlen)) && RecLen(IdxRec(next, key, r.datoff, r.datlen)) == RecLen(r)
  {
  }

  lemma SetRecFits(x: Index, k: nat, next: nat, key: string)
    requires Fits(x) && k < |x.recs| && |key| == |x.recs[k].key| && next <= PTR_MAX
    ensures var y := SetRec(x, k, IdxRec(next, key, x.recs[k].datoff, x.recs[k].datlen));
            Fits(y) && Keys(y.recs) == Keys(x.recs)[k := key]
            && (forall i :: 0 <= i < |x.recs| ==> RecLen(y.recs[i]) == RecLen(x.recs[i]))
            && forall i: nat :: i <= |x.recs| ==> Off(y.recs, i) == Off(x.recs, i)
  {
    var y := SetRec(x, k, IdxRec(next, key, x.recs[k].datoff, x.recs[k].datlen));
    SameText(x.recs[k], next, key);
    forall i: nat | i <= |x.recs| ensures Off(y.recs, i) == Off(x.recs, i) {
      OffsStay(x.recs, y.recs, i);
    }
  }

  ghost predicate SameExtents(a: seq<IdxRec>, b: seq<IdxRec>) {
    |a| == |b| && forall k :: 0 <= k < |a| ==> a[k].datoff == b[k].datoff && a[k].datlen == b[k].datlen
  }

  /** Data of the same length in the same place leaves all extents where they are. */
  lemma ExtentsStay(recs: seq<IdxRec>, after: seq<IdxRec>, datas: seq<string>, k: nat, data: string)
    requires ExtentsOk(recs, datas) && SameExtents(recs, after) && k < |datas| && |data| == |datas[k]|
    ensures ExtentsOk(after, datas[k := data])
  {
    var changed := datas[k := data];
    forall i: nat | i < |recs| ensures ExtentAt(after, changed, i) {
      assert ExtentAt(recs, datas, i);
      DataOffsStay(datas, changed, i);
    }
  }

  /** In a well-formed database the records tile the index file from the header to its end, in their
      order, and each whose key has no separator in it is read back from its own bytes. */
  lemma RecordsTile(db: Db, k: nat)
    requires Fits(db.x) && k < |db.x.recs|
    ensures var r := db.x.recs[k];
            Off(db.x.recs, 0) == HEADER && Off(db.x.recs, k) + RecLen(r) == Off(db.x.recs, k + 1)
            && (k + 1 == |db.x.recs| ==> Off(db.x.recs, k + 1) == |PrintIndex(db.x)|)
            && ParseAt(PrintIndex(db.x), Off(db.x.recs, k))
               == if SEP in r.key then None else Some(Parsed(r.next, RecLen(r) - PTR_SZ - IDXLEN_SZ, r.key, r.datoff, r.datlen))
    ensures forall j: nat :: j < k ==> HEADER <= Off(db.x.recs, j) < Off(db.x.recs, k)
  {
    hide Fits, PrintIndex, ParseAt, RecLen;
    IndexTiles(db.x);
    forall j: nat | j < k ensures HEADER <= Off(db.x.recs, j) < Off(db.x.recs, k) { OffsGrow(db.x.recs, j, k); }
    ReadRec(db.x, k);
  }

  /** Their extents tile the data file in the same order. */
  lemma ExtentsTile(db: Db, k: nat)
    requires ExtentsOk(db.x.recs, db.datas) && k < |db.x.recs|
    ensures var r := db.x.recs[k];
            (k == 0 ==> r.datoff == 0)
            && r.datoff + r.datlen == (if k + 1 < |db.x.recs| then db.x.recs[k + 1].datoff else |PrintData(db.datas)|)
            && r.datoff + r.datlen <= |PrintData(db.datas)|
            && PrintData(db.datas)[r.datoff..r.datoff + r.datlen] == db.datas[k] + [NEWLINE]
  {
    hide PrintData;
    DataTiles(db.datas);
    ReadData(db.datas, k);
    assert ExtentAt(db.x.recs, db.datas, k);
    assert k + 1 < |db.x.recs| ==> ExtentAt(db.x.recs, db.datas, k + 1);
  }

  // ----- deleting -----

  function BlankRec(db: Db, k: nat): IdxRec
    requires k < |db.x.recs| && |db.x.heads| > 0
  {
    var r := db.x.recs[k];
    IdxRec(db.x.heads[0], Blanks(|r.key|), r.datoff, r.datlen)
  }

  /** The index once _db_dodelete has rewritten the record, the free pointer, and the pointer that
      led to the record, in this order. */
  ghost function DeletedIndex(db: Db, l: nat, j: nat): Index
    requires Fits(db.x) && Linked(db.x, db.lists) && l < |db.lists| && j < |db.lists[l]|
  {
    ListedReachable(db, l, j);
    var k := db.lists[l][j];
    SetPtr(SetPtr(SetRec(db.x, k, BlankRec(db, k)), Head(0), Off(db.x.recs, k)), SlotOf(db.lists, l, j), db.x.recs[k].next)
  }

  ghost function Deleted(db: Db, l: nat, j: nat): Db
    requires Inv(db) && l < |db.lists| && j < |db.lists[l]|
  {
    var k := db.lists[l][j];
    Db(DeletedIndex(db, l, j), db.datas[k := Blanks(|db.datas[k]|)], Push(Drop(db.lists, l, j), 0, k))
  }

  /** Unlinking first and putting the record on the free list after comes to the same. */
  lemma DeletedIndexIs(db: Db, l: nat, j: nat)
    requires Fits(db.x) && Linked(db.x, db.lists) && Disjoint(db.lists) && 0 < l < |db.lists| && j < |db.lists[l]|
    ensures var k := db.lists[l][j]; var u := SetPtr(db.x, SlotOf(db.lists, l, j), db.x.recs[k].next);
            DeletedIndex(db, l, j) == SetPtr(SetRec(u, k, BlankRec(db, k)), Head(0), Off(db.x.recs, k))
  {
    var k, s := db.lists[l][j], SlotOf(db.lists, l, j);
    if j > 0 { assert At(db.lists, l, j, k) && At(db.lists, l, j - 1, db.lists[l][j - 1]); }
    assert s != Head(0) && s != Next(k);
    var u := SetPtr(db.x, s, db.x.recs[k].next);
    var a, b := DeletedIndex(db, l, j), SetPtr(SetRec(u, k, BlankRec(db, k)), Head(0), Off(db.x.recs, k));
    assert a.heads == b.heads;
    assert a.recs == b.recs;
  }

  lemma BlanksAreBlank(n: nat)
    ensures Blank(Blanks(n)) && SEP !in Blanks(n) && |Blanks(n)| == n
  {
  }

  lemma DeletedFits(db: Db, l: nat, j: nat)
    requires Fits(db.x) && Linked(db.x, db.lists) && Disjoint(db.lists) && 0 < l < |db.lists| && j < |db.lists[l]|
    ensures var k := db.lists[l][j]; var y := DeletedIndex(db, l, j);
            Fits(y) && Keys(y.recs) == Keys(db.x.recs)[k := Blanks(|db.x.recs[k].key|)]
            && SameExtents(db.x.recs, y.recs) && |y.recs| == |db.x.recs|
  {
    var k, s := db.lists[l][j], SlotOf(db.lists, l, j);
    ListedReachable(db, l, j);
    var u := SetPtr(db.x, s, db.x.recs[k].next);
    SetPtrFits(db.x, s, db.x.recs[k].next);
    DeletedIndexIs(db, l, j);
    BlanksAreBlank(|db.x.recs[k].key|);
    SetRecFits(u, k, db.x.heads[0], Blanks(|db.x.recs[k].key|));
    SetPtrFits(SetRec(u, k, BlankRec(db, k)), Head(0), Off(db.x.recs, k));
  }

  lemma DeletedLinks(db: Db, l: nat, j: nat)
    requires Fits(db.x) && Linked(db.x, db.lists) && Disjoint(db.lists) && 0 < l < |db.lists| && j < |db.lists[l]|
    ensures Linked(DeletedIndex(db, l, j), Push(Drop(db.lists, l, j), 0, db.lists[l][j]))
  {
    var k, s, d := db.lists[l][j], SlotOf(db.lists, l, j), Drop(db.lists, l, j);
    ListedReachable(db, l, j);
    var next := db.x.recs[k].next;
    var u := SetPtr(db.x, s, next);
    Unlink(db.x, db.lists, l, j);
    DropDisjoint(db.lists, l, j);
    SetPtrFits(db.x, s, next);
    BlanksAreBlank(|db.x.recs[k].key|);
    SetRecFits(u, k, db.x.heads[0], Blanks(|db.x.recs[k].key|));
    SetPtrOffs(db.x, s, next, k);
    var y := SetRec(u, k, BlankRec(db, k));
    assert u.heads[0] == db.x.heads[0] by { assert s != Head(0); }
    assert SameLinks(u, y, d);
    LinkIn(u, y, d, 0, k);
    DeletedIndexIs(db, l, j);
  }

  /** The free list is clean, as its records are blank. */
  lemma FreeIsClean(v: View)
    requires ListsOk(v)
    ensures Clean(v, 0)
  {
  }

  lemma DeletedMaps(db: Db, l: nat, j: nat, m: map<string, string>)
    requires Inv(db) && IsMap(db, m) && 0 < l < |db.lists| && j < |db.lists[l]| && Clean(ViewOf(db), l)
    ensures FrontsOk(ViewOf(Deleted(db, l, j)))
    ensures ListsOk(ViewOf(Deleted(db, l, j))) && IsMap(Deleted(db, l, j), m - {db.x.recs[db.lists[l][j]].key})
  {
    var k, v := db.lists[l][j], ViewOf(db);
    var after := m - {db.x.recs[k].key};
    Removed(v, l, j, m);
    DeletedFits(db, l, j);
    var w := v.(lists := Drop(v.lists, l, j));
    var z := View(v.keys[k := Blanks(|v.keys[k]|)], v.datas[k := Blanks(|v.datas[k]|)], w.lists);
    Rewritten(w, z, after);
    BlanksAreBlank(|v.keys[k]|);
    BlanksAreBlank(|v.datas[k]|);
    AddedFree(z, k, after);
    DropFronts(v, l, j);
    RewrittenFronts(w, z);
    FreeIsClean(z);
    PushFronts(z, 0, k);
    assert ViewOf(Deleted(db, l, j)) == z.(lists := Push(z.lists, 0, k));
  }

  /** Deleting moves one record to the free list and takes its key out of the map. */
  lemma DeleteKeeps(db: Db, l: nat, j: nat, m: map<string, string>)
    requires Inv(db) && IsMap(db, m) && 0 < l < |db.lists| && j < |db.lists[l]| && Clean(ViewOf(db), l)
    ensures Inv(Deleted(db, l, j)) && IsMap(Deleted(db, l, j), m - {db.x.recs[db.lists[l][j]].key})
  {
    hide Fits, Linked, Covers, ListsOk, Represents, ExtentsOk, Push, DeletedIndex, Keys, Disjoint, SameExtents, FrontsOk, Clean;
    var k := db.lists[l][j];
    ListedInRange(db, l, j);
    DeletedFits(db, l, j);
    DeletedLinks(db, l, j);
    DeletedMaps(db, l, j, m);
    DropCovers(db.lists, l, j, |db.x.recs|);
    PushCovers(Drop(db.lists, l, j), 0, k, |db.x.recs|);
    ExtentsStay(db.x.recs, DeletedIndex(db, l, j).recs, db.datas, k, Blanks(|db.datas[k]|));
  }

  lemma ListCount(db: Db)
    requires Inv(db)
    ensures |db.lists| == |db.x.heads| == HEADS
  {
  }

  lemma ListedInRange(db: Db, l: nat, j: nat)
    requires Inv(db) && l < |db.lists| && j < |db.lists[l]|
    ensures db.lists[l][j] < |db.x.recs| == |db.datas| && |db.lists| == HEADS && Disjoint(db.lists)
    ensures ExtentAt(db.x.recs, db.datas, db.lists[l][j]) && RecFits(db.x.recs[db.lists[l][j]])
  {
  }

  // ----- inserting -----

  function NewRec(db: Db, key: string, data: string): IdxRec
    requires |db.x.heads| == HEADS
  {
    IdxRec(db.x.heads[Bucket(key)], key, DataOff(db.datas, |db.datas|), |data| + 1)
  }

  /** The index once a record has been appended and its chain's head pointed at it. */
  ghost function AppendedIndex(db: Db, key: string, data: string): Index
    requires |db.x.heads| == HEADS
  {
    SetPtr(db.x.(recs := db.x.recs + [NewRec(db, key, data)]), Head(Bucket(key)), Off(db.x.recs, |db.x.recs|))
  }

  ghost function Appended(db: Db, key: string, data: string): Db
    requires |db.x.heads| == HEADS == |db.lists|
  {
    Db(AppendedIndex(db, key, data), db.datas + [data], Push(db.lists, Bucket(key), |db.x.recs|))
  }

  lemma AppendedLinks(db: Db, key: string, data: string)
    requires Fits(db.x) && Linked(db.x, db.lists)
    ensures Linked(AppendedIndex(db, key, data), Push(db.lists, Bucket(key), |db.x.recs|))
  {
    var n := |db.x.recs|;
    var y := db.x.(recs := db.x.recs + [NewRec(db, key, data)]);
    OffsStay(db.x.recs, y.recs, n);
    LinkIn(db.x, y, db.lists, Bucket(key), n);
  }

  lemma AppendedExtents(db: Db, key: string, data: string)
    requires Fits(db.x) && ExtentsOk(db.x.recs, db.datas)
    ensures ExtentsOk(AppendedIndex(db, key, data).recs, db.datas + [data])
  {
    forall i: nat | i <= |db.x.recs| ensures ExtentAt(AppendedIndex(db, key, data).recs, db.datas + [data], i) {
      assert i < |db.x.recs| ==> ExtentAt(db.x.recs, db.datas, i);
      DataOffsStay(db.datas, db.datas + [data], i);
    }
  }

  lemma AppendedMaps(db: Db, key: string, data: string, m: map<string, string>)
    requires Inv(db) && IsMap(db, m) && key !in m && Clean(ViewOf(db), Bucket(key))
    ensures FrontsOk(ViewOf(Appended(db, key, data)))
    ensures ListsOk(ViewOf(Appended(db, key, data))) && IsMap(Appended(db, key, data), m[key := data])
  {
    var n, v := |db.x.recs|, ViewOf(db);
    var z := View(v.keys + [key], v.datas + [data], v.lists);
    Rewritten(v, z, m);
    AddedLive(z, n, m);
    RewrittenFronts(v, z);
    PushFronts(z, Bucket(key), n);
    assert ViewOf(Appended(db, key, data)) == z.(lists := Push(z.lists, Bucket(key), n));
  }

  lemma AppendedCovers(lists: seq<seq<nat>>, l: nat, n: nat)
    requires Covers(lists, n) && l < |lists|
    ensures Covers(Push(lists, l, n), n + 1)
  {
    PushCovers(lists, l, n, n + 1);
  }

  /** Appending adds a key that was not there, in a record at the end of both files. */
  lemma AppendKeeps(db: Db, key: string, data: string, m: map<string, string>)
    requires Inv(db) && IsMap(db, m) && key !in m && Clean(ViewOf(db), Bucket(key))
    requires RecFits(NewRec(db, key, data)) && Off(db.x.recs, |db.x.recs|) <= PTR_MAX
    ensures Inv(Appended(db, key, data)) && IsMap(Appended(db, key, data), m[key := data])
  {
    hide Linked, Covers, ListsOk, Represents, ExtentsOk, Push, Keys, FrontsOk, Clean;
    ListCount(db);
    AppendedLinks(db, key, data);
    AppendedExtents(db, key, data);
    AppendedMaps(db, key, data, m);
    AppendedCovers(db.lists, Bucket(key), |db.x.recs|);
    SetPtrFits(db.x.(recs := db.x.recs + [NewRec(db, key, data)]), Head(Bucket(key)), Off(db.x.recs, |db.x.recs|));
  }

  // ----- reusing a free record -----

  /** The free record j taken off the free list. */
  ghost function TakenIndex(db: Db, j: nat): Index
    requires Linked(db.x, db.lists) && j < |db.lists[0]|
  {
    assert LinkAt(db.x, db.lists, 0, j);
    SetPtr(db.x, SlotOf(db.lists, 0, j), db.x.recs[db.lists[0][j]].next)
  }

  function ReusedRec(db: Db, k: nat, key: string): IdxRec
    requires |db.x.heads| == HEADS && k < |db.x.recs|
  {
    IdxRec(db.x.heads[Bucket(key)], key, db.x.recs[k].datoff, db.x.recs[k].datlen)
  }

  ghost function ReusedIndex(db: Db, j: nat, key: string): Index
    requires Linked(db.x, db.lists) && j < |db.lists[0]|
  {
    var k := db.lists[0][j];
    SetPtr(SetRec(TakenIndex(db, j), k, ReusedRec(db, k, key)), Head(Bucket(key)), Off(db.x.recs, k))
  }

  ghost function Reused(db: Db, j: nat, key: string, data: string): Db
    requires Inv(db) && j < |db.lists[0]|
  {
    var k := db.lists[0][j];
    Db(ReusedIndex(db, j, key), db.datas[k := data], Push(Drop(db.lists, 0, j), Bucket(key), k))
  }

  lemma TakenHeads(db: Db, j: nat, key: string)
    requires Linked(db.x, db.lists) && j < |db.lists[0]|
    ensures |TakenIndex(db, j).heads| == HEADS && TakenIndex(db, j).heads[Bucket(key)] == db.x.heads[Bucket(key)]
    ensures |TakenIndex(db, j).recs| == |db.x.recs|
    ensures forall i :: 0 <= i < |db.x.recs| ==> TakenIndex(db, j).recs[i] == db.x.recs[i].(next := TakenIndex(db, j).recs[i].next)
  {
  }

  lemma ReusedFits(db: Db, j: nat, key: string)
    requires Fits(db.x) && Linked(db.x, db.lists) && j < |db.lists[0]|
    requires |key| == |db.x.recs[db.lists[0][j]].key|
    ensures var k := db.lists[0][j]; var y := ReusedIndex(db, j, key);
            Fits(y) && Keys(y.recs) == Keys(db.x.recs)[k := key] && SameExtents(db.x.recs, y.recs)
  {
    var k, s := db.lists[0][j], SlotOf(db.lists, 0, j);
    ListedReachable(db, 0, j);
    SetPtrFits(db.x, s, db.x.recs[k].next);
    TakenHeads(db, j, key);
    SetRecFits(TakenIndex(db, j), k, db.x.heads[Bucket(key)], key);
    SetPtrFits(SetRec(TakenIndex(db, j), k, ReusedRec(db, k, key)), Head(Bucket(key)), Off(db.x.recs, k));
  }

  lemma ReusedLinks(db: Db, j: nat, key: string)
    requires Fits(db.x) && Linked(db.x, db.lists) && Disjoint(db.lists) && j < |db.lists[0]|
    requires |key| == |db.x.recs[db.lists[0][j]].key|
    ensures Linked(ReusedIndex(db, j, key), Push(Drop(db.lists, 0, j), Bucket(key), db.lists[0][j]))
  {
    var k, s, d := db.lists[0][j], SlotOf(db.lists, 0, j), Drop(db.lists, 0, j);
    ListedReachable(db, 0, j);
    var u := TakenIndex(db, j);
    Unlink(db.x, db.lists, 0, j);
    DropDisjoint(db.lists, 0, j);
    TakenHeads(db, j, key);
    SetPtrFits(db.x, s, db.x.recs[k].next);
    SetPtrOffs(db.x, s, db.x.recs[k].next, k);
    SetRecFits(u, k, db.x.heads[Bucket(key)], key);
    var y := SetRec(u, k, ReusedRec(db, k, key));
    assert SameLinks(u, y, d);
    LinkIn(u, y, d, Bucket(key), k);
  }

  lemma ReusedMaps(db: Db, j: nat, key: string, data: string, m: map<string, string>)
    requires Inv(db) && IsMap(db, m) && key !in m && j < |db.lists[0]| && Clean(ViewOf(db), Bucket(key))
    requires |key| == |db.x.recs[db.lists[0][j]].key|
    ensures FrontsOk(ViewOf(Reused(db, j, key, data)))
    ensures ListsOk(ViewOf(Reused(db, j, key, data))) && IsMap(Reused(db, j, key, data), m[key := data])
  {
    var k, v := db.lists[0][j], ViewOf(db);
    Removed(v, 0, j, m);
    ReusedFits(db, j, key);
    var w := v.(lists := Drop(v.lists, 0, j));
    var z := View(v.keys[k := key], v.datas[k := data], w.lists);
    Rewritten(w, z, m);
    AddedLive(z, k, m);
    FreeIsClean(v);
    DropFronts(v, 0, j);
    DropClean(v, 0, j, Bucket(key));
    RewrittenFronts(w, z);
    PushFronts(z, Bucket(key), k);
    assert ViewOf(Reused(db, j, key, data)) == z.(lists := Push(z.lists, Bucket(key), k));
  }

  /** Reusing a free record of the exact sizes adds a key that was not there, in its place. */
  lemma ReuseKeeps(db: Db, j: nat, key: string, data: string, m: map<string, string>)
    requires Inv(db) && IsMap(db, m) && key !in m && j < |db.lists[0]| && Clean(ViewOf(db), Bucket(key))
    requires var k := db.lists[0][j]; |key| == |db.x.recs[k].key| && |data| + 1 == db.x.recs[k].datlen
    ensures Inv(Reused(db, j, key, data)) && IsMap(Reused(db, j, key, data), m[key := data])
  {
    hide Fits, Linked, Covers, ListsOk, Represents, ExtentsOk, Push, ReusedIndex, Keys, Disjoint, SameExtents, FrontsOk, Clean;
    ListCount(db);
    var k := db.lists[0][j];
    ListedInRange(db, 0, j);
    ReusedFits(db, j, key);
    ReusedLinks(db, j, key);
    ReusedMaps(db, j, key, data, m);
    DropCovers(db.lists, 0, j, |db.x.recs|);
    PushCovers(Drop(db.lists, 0, j), Bucket(key), k, |db.x.recs|);
    ExtentsStay(db.x.recs, ReusedIndex(db, j, key).recs, db.datas, k, data);
  }

  // ----- overwriting -----

  ghost function Overwritten(db: Db, k: nat, data: string): Db
    requires k < |db.datas|
  {
    db.(datas := db.datas[k := data])
  }

  lemma DataFronts(v: View, k: nat, data: string)
    requires FrontsOk(v) && ListsOk(v) && k < |v.datas|
    ensures FrontsOk(v.(datas := v.datas[k := data]))
  {
    RewrittenFronts(v, v.(datas := v.datas[k := data]));
  }

  /** Data of the same size replaces the value of a key in place. */
  lemma OverwriteKeeps(db: Db, l: nat, j: nat, data: string, m: map<string, string>)
    requires Inv(db) && IsMap(db, m) && 0 < l < |db.lists| && j < |db.lists[l]|
    requires |data| + 1 == db.x.recs[db.lists[l][j]].datlen
    ensures db.lists[l][j] < |db.datas|
    ensures Inv(Overwritten(db, db.lists[l][j], data))
    ensures IsMap(Overwritten(db, db.lists[l][j], data), m[db.x.recs[db.lists[l][j]].key := data])
  {
    hide Fits, Linked, Covers, ListsOk, Represents, ExtentsOk, Disjoint, FrontsOk;
    var k := db.lists[l][j];
    ListedInRange(db, l, j);
    DataChanged(ViewOf(db), l, j, data, m);
    DataFronts(ViewOf(db), k, data);
    ExtentsStay(db.x.recs, db.x.recs, db.datas, k, data);
  }
}
