/** The byte writes of each operation, in the order they are made, print the database it leads to. */
module DbWrites {
  import opened DbCodec
  import opened DbImage
  import opened DbLists
  import opened DbMap
  import opened DbState

  lemma OverwriteLength(file: string, at: nat, bytes: string)
    requires at + |bytes| <= |file|
    ensures |Overwrite(file, at, bytes)| == |file|
  {
  }

  lemma SamePlace(x: Index, y: Index, s: Slot)
    requires SlotIn(x, s) && |y.heads| == |x.heads| && |y.recs| == |x.recs|
    requires forall i: nat :: i <= |x.recs| ==> Off(y.recs, i) == Off(x.recs, i)
    ensures SlotIn(y, s) && SlotOff(y, s) == SlotOff(x, s)
  {
  }

  lemma PtrWrite(x: Index, s: Slot, p: nat)
    requires Fits(x) && SlotIn(x, s) && p <= PTR_MAX
    ensures SlotOff(x, s) <= |PrintIndex(x)| && Fits(SetPtr(x, s, p))
    ensures Overwrite(PrintIndex(x), SlotOff(x, s), Field(p, PTR_SZ)) == PrintIndex(SetPtr(x, s, p))
    ensures |PrintIndex(SetPtr(x, s, p))| == |PrintIndex(x)|
    ensures |SetPtr(x, s, p).recs| == |x.recs|
    ensures forall i: nat :: i <= |x.recs| ==> Off(SetPtr(x, s, p).recs, i) == Off(x.recs, i)
  {
    hide Fits, SlotOff, SetPtr, PtrAt, PrintIndex, Off, SlotIn;
    WritePtr(x, s, p);
    ReadPtr(x, s);
    FieldWidths(p, 0);
    OverwriteLength(PrintIndex(x), SlotOff(x, s), Field(p, PTR_SZ));
    SetPtrOffs(x, s, p, 0);
    forall i: nat | i <= |x.recs| ensures Off(SetPtr(x, s, p).recs, i) == Off(x.recs, i) {
      SetPtrOffs(x, s, p, i);
    }
  }

  lemma RecWrite(x: Index, k: nat, next: nat, key: string)
    requires Fits(x) && k < |x.recs| && |key| == |x.recs[k].key| && next <= PTR_MAX
    ensures var r := IdxRec(next, key, x.recs[k].datoff, x.recs[k].datlen); var y := SetRec(x, k, r);
            RecFits(r) && Off(x.recs, k) <= |PrintIndex(x)| && Fits(y)
            && Overwrite(PrintIndex(x), Off(x.recs, k), RecText(r)) == PrintIndex(y)
            && |PrintIndex(y)| == |PrintIndex(x)|
            && forall i: nat :: i <= |x.recs| ==> Off(y.recs, i) == Off(x.recs, i)
  {
    hide Fits, PrintIndex, Off, RecText, RecLen, EntryFits;
    var r := IdxRec(next, key, x.recs[k].datoff, x.recs[k].datlen);
    ThisFits(x, k);
    SameText(x.recs[k], next, key);
    WriteRec(x, k, r);
    ReadRec(x, k);
    RecWidth(r);
    OverwriteLength(PrintIndex(x), Off(x.recs, k), RecText(r));
    SetRecFits(x, k, next, key);
  }

  lemma ThisFits(x: Index, k: nat)
    requires Fits(x) && k < |x.recs|
    ensures RecFits(x.recs[k]) && x.recs[k].next <= PTR_MAX
  {
  }

  /** _db_dodelete: the record with blanks, the free pointer, the pointer that led to the record. */
  lemma DeletedPrints(db: Db, l: nat, j: nat)
    requires Inv(db) && 0 < l < |db.lists| && j < |db.lists[l]|
    ensures var k := db.lists[l][j]; var r := BlankRec(db, k);
            k < |db.x.recs| && RecFits(r) && Off(db.x.recs, k) <= PTR_MAX && db.x.recs[k].next <= PTR_MAX
            && SlotIn(db.x, SlotOf(db.lists, l, j)) && Off(db.x.recs, k) <= |PrintIndex(db.x)|
    ensures var k, s := db.lists[l][j], SlotOf(db.lists, l, j);
            var one := Overwrite(PrintIndex(db.x), Off(db.x.recs, k), RecText(BlankRec(db, k)));
            PTR_SZ <= |one|
            && (var two := Overwrite(one, 0, Field(Off(db.x.recs, k), PTR_SZ));
                SlotOff(db.x, s) <= |two|
                && Overwrite(two, SlotOff(db.x, s), Field(db.x.recs[k].next, PTR_SZ)) == PrintIndex(DeletedIndex(db, l, j)))
    ensures |PrintIndex(DeletedIndex(db, l, j))| == |PrintIndex(db.x)|
  {
    hide Linked, Covers, ListsOk, ExtentsOk, Off, PrintIndex, RecText, EntryFits;
    var x, k, s := db.x, db.lists[l][j], SlotOf(db.lists, l, j);
    ListedReachable(db, l, j);
    ThisFits(x, k);
    BlanksAreBlank(|x.recs[k].key|);
    RecWrite(x, k, x.heads[0], Blanks(|x.recs[k].key|));
    var y := SetRec(x, k, BlankRec(db, k));
    ReadPtr(y, Head(0));
    PtrWrite(y, Head(0), Off(x.recs, k));
    var z := SetPtr(y, Head(0), Off(x.recs, k));
    SamePlace(x, z, s);
    PtrWrite(z, s, x.recs[k].next);
  }

  /** An insertion at the end: the record, then its chain's head. */
  lemma AppendedPrints(db: Db, key: string, data: string)
    requires Fits(db.x) && RecFits(NewRec(db, key, data)) && Off(db.x.recs, |db.x.recs|) <= PTR_MAX
    ensures |PrintIndex(db.x)| == Off(db.x.recs, |db.x.recs|)
    ensures var one := Overwrite(PrintIndex(db.x), |PrintIndex(db.x)|, RecText(NewRec(db, key, data)));
            Bucket(key) * PTR_SZ <= |one|
            && Overwrite(one, Bucket(key) * PTR_SZ, Field(Off(db.x.recs, |db.x.recs|), PTR_SZ))
               == PrintIndex(AppendedIndex(db, key, data))
  {
    hide Off, PrintIndex, RecText, EntryFits;
    AppendRec(db.x, NewRec(db, key, data));
    IndexTiles(db.x);
    PtrWrite(db.x.(recs := db.x.recs + [NewRec(db, key, data)]), Head(Bucket(key)), Off(db.x.recs, |db.x.recs|));
  }

  /** Taking a record off the free list: the pointer that led to it. */
  lemma TakenPrints(db: Db, j: nat)
    requires Inv(db) && j < |db.lists[0]|
    ensures var k := db.lists[0][j]; var s := SlotOf(db.lists, 0, j);
            k < |db.x.recs| && SlotIn(db.x, s) && db.x.recs[k].next <= PTR_MAX
            && SlotOff(db.x, s) <= |PrintIndex(db.x)| && Fits(TakenIndex(db, j))
            && Overwrite(PrintIndex(db.x), SlotOff(db.x, s), Field(db.x.recs[k].next, PTR_SZ)) == PrintIndex(TakenIndex(db, j))
            && |PrintIndex(TakenIndex(db, j))| == |PrintIndex(db.x)| && |TakenIndex(db, j).recs| == |db.x.recs|
            && forall i: nat :: i <= |db.x.recs| ==> Off(TakenIndex(db, j).recs, i) == Off(db.x.recs, i)
  {
    hide Covers, ListsOk, ExtentsOk, Off, PrintIndex;
    var k := db.lists[0][j];
    ListedReachable(db, 0, j);
    ThisFits(db.x, k);
    PtrWrite(db.x, SlotOf(db.lists, 0, j), db.x.recs[k].next);
  }

  /** A reuse after that: the record, then its chain's head. */
  lemma ReusedPrints(db: Db, j: nat, key: string)
    requires Inv(db) && j < |db.lists[0]| && |key| == |db.x.recs[db.lists[0][j]].key|
    ensures var k := db.lists[0][j]; var r := ReusedRec(db, k, key); var file := PrintIndex(TakenIndex(db, j));
            RecFits(r) && Off(db.x.recs, k) <= PTR_MAX && Off(db.x.recs, k) <= |file|
    ensures var k := db.lists[0][j]; var file := PrintIndex(TakenIndex(db, j));
            var one := Overwrite(file, Off(db.x.recs, k), RecText(ReusedRec(db, k, key)));
            Bucket(key) * PTR_SZ <= |one|
            && Overwrite(one, Bucket(key) * PTR_SZ, Field(Off(db.x.recs, k), PTR_SZ)) == PrintIndex(ReusedIndex(db, j, key))
    ensures |PrintIndex(ReusedIndex(db, j, key))| == |PrintIndex(db.x)|
  {
    hide Covers, ListsOk, ExtentsOk, Off, PrintIndex, RecText, EntryFits;
    var k := db.lists[0][j];
    ListedReachable(db, 0, j);
    TakenPrints(db, j);
    TakenHeads(db, j, key);
    var u := TakenIndex(db, j);
    RecWrite(u, k, db.x.heads[Bucket(key)], key);
    PtrWrite(SetRec(u, k, ReusedRec(db, k, key)), Head(Bucket(key)), Off(db.x.recs, k));
  }
}
