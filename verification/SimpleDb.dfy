/** SimpleDB itself: two files, a cursor, and operations that read and write bytes at offsets.  Each is
    proved to do to the map what it promises.  `halted` stands for err_dump and err_quit, which end
    the process. */
module SimpleDb {
  import opened Commands
  import opened DbCodec
  import opened DbImage
  import opened DbLists
  import opened DbMap
  import opened DbState
  import opened DbScan
  import opened DbWrites

  const FREE_OFF := 0
  const HASH_OFF := PTR_SZ
  const DB_INSERT := 1
  const DB_REPLACE := 2
  const DB_STORE := 3

  /** A free record of exactly these sizes. */
  ghost predicate FitsFree(db: Db, j: nat, keylen: nat, datlen: nat) {
    |db.lists| > 0 && j < |db.lists[0]| && db.lists[0][j] < |db.x.recs|
    && |db.x.recs[db.lists[0][j]].key| == keylen && db.x.recs[db.lists[0][j]].datlen == datlen
  }

  ghost predicate HasFree(db: Db, keylen: nat, datlen: nat) {
    exists j :: FitsFree(db, j, keylen, datlen)
  }

  /** Whether a record can be added at the end of both files. */
  predicate CanAppend(idxSize: nat, datSize: nat, key: string, datlen: nat) {
    idxSize <= PTR_MAX && IDXLEN_MIN <= |Text(key, datSize, datlen)| <= IDXLEN_MAX
  }

  class DB {
    var idx: string          // the index file
    var dat: string          // the data file
    var pos: nat             // where the index file's descriptor stands

    var idxbuf: string       // the key of the record last read
    var datbuf: string
    var idxoff: nat
    var idxlen: nat
    var datoff: nat
    var datlen: nat
    var ptrval: int
    var ptroff: nat
    var chainoff: nat

    ghost var db: Db
    ghost var contents: map<string, string>

    /** The files are the print of a well-formed database that represents the contents. */
    ghost predicate Valid()
      reads this
    {
      Inv(db) && IsMap(db, contents) && idx == PrintIndex(db.x) && dat == PrintData(db.datas)
    }

    /** The cursor is on record j of list l. */
    ghost predicate Located(l: nat, j: nat)
      reads this
      requires Inv(db) && l < |db.lists| && j < |db.lists[l]|
    {
      var k := db.lists[l][j];
      idxoff == Off(db.x.recs, k) && ptrval == db.x.recs[k].next && idxbuf == db.x.recs[k].key
      && datoff == db.x.recs[k].datoff && datlen == db.x.recs[k].datlen
    }

    // ----- files -----

    /** db_open on a name that did not exist. */
    constructor Create()
      ensures Valid() && contents == map[] && db == Empty() && pos == HEADER
      ensures |idx| == 967 && idx[966] == '\n' && dat == ""
      ensures forall i: nat :: i < 966 ==> idx[i] == if i % 7 == 6 then '0' else ' '
    {
      idxbuf, datbuf, idxoff, idxlen, datoff, datlen, ptrval, ptroff, chainoff := "", "", 0, 0, 0, 0, 0, 0, 0;
      dat, db, contents := "", Empty(), map[];
      var hashs, i := "", 0;
      while i < HEADS
        invariant 0 <= i <= HEADS && hashs == Flatten(seq(i, k => Field(0, PTR_SZ)))
        invariant |hashs| == 7 * i && forall k: nat :: k < 7 * i ==> hashs[k] == if k % 7 == 6 then '0' else ' '
      {
        ZeroPointer();
        assert seq(i + 1, k => Field(0, PTR_SZ))[..i] == seq(i, k => Field(0, PTR_SZ));
        hashs := hashs + Field(0, PTR_SZ);
        i := i + 1;
      }
      idx, pos := hashs + [NEWLINE], HEADER;
      EmptyOk();
      PrintEmpty();
    }

    method ReadPtr(offset: nat) returns (p: int)
      requires offset + PTR_SZ <= |idx|
      modifies this`pos
      ensures p == Atol(idx[offset..offset + PTR_SZ])
    {
      pos := offset + PTR_SZ;
      p := Atol(idx[offset..pos]);
    }

    method WritePtr(offset: nat, ptr: nat) returns (halted: bool)
      requires offset <= |idx|
      modifies this`pos, this`idx
      ensures halted == (ptr > 999999)
      ensures idx == if halted then old(idx) else Overwrite(old(idx), offset, Field(ptr, PTR_SZ))
    {
      if ptr > PTR_MAX { return true; }
      pos := offset + PTR_SZ;
      idx := Overwrite(idx, offset, Field(ptr, PTR_SZ));
      return false;
    }

    /** Offset 0 means the current position; -1 means that there is nothing left.  A record that does
        not parse ends the process. */
    method ReadIdx(offset: nat) returns (next: int, halted: bool)
      modifies this`pos, this`idxbuf, this`idxoff, this`idxlen, this`datoff, this`datlen, this`ptrval
      ensures idxoff == if offset == 0 then old(pos) else offset
      ensures offset == 0 && idxoff >= |idx| ==> next == -1 && !halted && pos == old(pos)
      ensures !(offset == 0 && idxoff >= |idx|) ==> halted == (ParseAt(idx, idxoff) == None)
      ensures !(offset == 0 && idxoff >= |idx|) && !halted ==>
                ParseAt(idx, idxoff) == Some(Parsed(ptrval, idxlen, idxbuf, datoff, datlen)) && next == ptrval
                && pos == idxoff + PTR_SZ + IDXLEN_SZ + idxlen == idxoff + 11 + idxlen && 6 <= idxlen <= 1024
    {
      idxoff := if offset == 0 then pos else offset;
      if offset == 0 && idxoff >= |idx| { return -1, false; }
      var p := ParseAt(idx, idxoff);
      if p == None { return -1, true; }
      ptrval, idxlen, idxbuf, datoff, datlen := p.value.ptrval, p.value.idxlen, p.value.key, p.value.datoff, p.value.datlen;
      pos := idxoff + PTR_SZ + IDXLEN_SZ + idxlen;
      return ptrval, false;
    }

    method ReadDat() returns (data: string)
      requires datlen > 0 && datoff + datlen <= |dat|
      modifies this`datbuf
      ensures data == dat[datoff..datoff + datlen][..datlen - 1]
    {
      datbuf := dat[datoff..datoff + datlen];
      datbuf := datbuf[..datlen - 1];
      return datbuf;
    }

    method WriteDat(data: string, offset: nat, atEnd: bool)
      requires offset <= |dat|
      modifies this`dat, this`datoff, this`datlen
      ensures datoff == (if atEnd then |old(dat)| else offset) && datlen == |data| + 1
      ensures dat == Overwrite(old(dat), datoff, data + [NEWLINE])
    {
      datoff := if atEnd then |dat| else offset;
      datlen := |data| + 1;
      dat := Overwrite(dat, datoff, data + [NEWLINE]);
    }

    method WriteIdx(key: string, offset: nat, atEnd: bool, ptr: nat) returns (halted: bool)
      requires offset <= |idx|
      modifies this`idx, this`pos, this`ptrval, this`idxbuf, this`idxoff
      ensures halted == (ptr > 999999 || !(6 <= |Text(key, datoff, datlen)| <= 1024))
      ensures !halted ==> idxoff == if atEnd then |old(idx)| else offset
      ensures !halted ==> idx == Overwrite(old(idx), idxoff, Entry(ptr, key, datoff, datlen))
    {
      ptrval := ptr;
      if ptr > PTR_MAX { return true; }
      idxbuf := Text(key, datoff, datlen);
      var len := |idxbuf|;
      if len < IDXLEN_MIN || len > IDXLEN_MAX { return true; }
      idxoff := if atEnd then |idx| else offset;
      idx := Overwrite(idx, idxoff, Field(ptr, PTR_SZ) + Field(len, IDXLEN_SZ) + idxbuf);
      pos := if idxoff + PTR_SZ + IDXLEN_SZ + len <= |idx| then idxoff + PTR_SZ + IDXLEN_SZ + len else |idx|;
      return false;
    }

    // ----- the hash -----

    method HashOf(key: string) returns (h: nat)
      ensures h == Hash(key) == (Sum(key, (|key| + 1) / 2) % 0x1_0000_0000_0000_0000) % 137
    {
      HashIsSum(key);
      var hval, i := 0, 1;
      while i <= |key| - (i - 1)
        invariant i >= 1 && 0 <= hval && HashFrom(key, i, hval) == HashFrom(key, 1, 0)
        decreases |key| - i
      {
        hval := (hval + SignedChar(key[2 * (i - 1)]) * i) % WORD;
        i := i + 1;
      }
      return hval % NHASH;
    }

    // ----- finding -----

    /** Reading the record that position n of a list leads to, which ends the process if its key has a
        separator in it. */
    method Step(ghost l: nat, ghost n: nat, offset: nat) returns (next: nat, halted: bool)
      requires Valid() && l < |db.lists| && n < |db.lists[l]| && offset == PtrTo(db.x, db.lists[l], n)
      modifies this`pos, this`idxbuf, this`idxoff, this`idxlen, this`datoff, this`datlen, this`ptrval
      ensures Valid() && db.lists[l][n] < |db.x.recs| && halted == (SEP in db.x.recs[db.lists[l][n]].key)
      ensures !halted ==> Located(l, n) && next == PtrTo(db.x, db.lists[l], n + 1)
      ensures offset == SlotOff(db.x, SlotOf(db.lists, l, n + 1))
    {
      ghost var k := db.lists[l][n];
      ReadRec(db.x, k);
      ListedReachable(db, l, n);
      assert LinkAt(db.x, db.lists, l, n + 1);
      var p;
      p, halted := ReadIdx(offset);
      next := if halted then 0 else p;
    }

    /** Where position n of a list starts. */
    method First(ghost l: nat, offset: nat) returns (p: nat)
      requires Valid() && l < |db.lists| && offset == l * PTR_SZ
      modifies this`pos
      ensures p == PtrTo(db.x, db.lists[l], 0)
      ensures offset == SlotOff(db.x, SlotOf(db.lists, l, 0))
    {
      DbImage.ReadPtr(db.x, Head(l));
      assert LinkAt(db.x, db.lists, l, 0);
      var q := ReadPtr(offset);
      p := q;
    }

    /** 0 and the cursor on the key's record, or -1 if the map does not have the key.  The walk ends the
        process exactly when the map has a key with a separator in it on the same chain. */
    method DbFind(key: string) returns (rc: int, halted: bool, ghost j: nat)
      requires Valid()
      modifies this`pos, this`idxbuf, this`idxoff, this`idxlen, this`datoff, this`datlen, this`ptrval, this`ptroff, this`chainoff
      ensures Valid() && chainoff == Bucket(key) * PTR_SZ == 7 * (1 + Hash(key))
      ensures halted == !CleanFor(contents, Bucket(key))
      ensures !halted ==> rc == if key in contents then 0 else -1
      ensures !halted && rc == 0 ==>
                j < |db.lists[Bucket(key)]| && Located(Bucket(key), j) && idxbuf == key
                && Keeps(ViewOf(db), key, j, db.lists[Bucket(key)][j])
                && ptroff == SlotOff(db.x, SlotOf(db.lists, Bucket(key), j))
    {
      hide Fits, ListsOk, Covers, ExtentsOk, Represents, Off, PrintIndex, PrintData, Hash, LinkAt, PtrAt, Keeps, FrontsOk, Clean, CleanFor;
      rc, halted, j := -1, false, 0;
      var h := HashOf(key);
      chainoff := h * PTR_SZ + HASH_OFF;
      ptroff := chainoff;
      ghost var l := Bucket(key);
      ChainReads(db, contents, l);
      var offset := First(l, ptroff);
      while offset != 0
        invariant Valid() && chainoff == Bucket(key) * PTR_SZ && j <= |db.lists[l]| && (j > 0 ==> CleanFor(contents, l))
        invariant offset == PtrTo(db.x, db.lists[l], j) && ptroff == SlotOff(db.x, SlotOf(db.lists, l, j))
        invariant forall i :: 0 <= i < j ==> db.x.recs[db.lists[l][i]].key != key
        decreases |db.lists[l]| - j
      {
        var nextoffset;
        nextoffset, halted := Step(l, j, offset);
        if halted { return; }
        if idxbuf == key { break; }
        ptroff := offset;
        offset := nextoffset;
        j := j + 1;
      }
      FoundOrNot(db, contents, key, j);
      if offset != 0 { ListedReachable(db, l, j); }
      rc := if offset == 0 then -1 else 0;
    }

    method DbFetch(key: string) returns (data: Option<string>, halted: bool)
      requires Valid()
      modifies this`pos, this`idxbuf, this`datbuf, this`idxoff, this`idxlen, this`datoff, this`datlen, this`ptrval,
               this`ptroff, this`chainoff
      ensures Valid() && halted == !CleanFor(contents, Bucket(key))
      ensures !halted ==> data == if key in contents then Some(contents[key]) else None
    {
      hide Fits, Covers, Off, PrintIndex, Hash, LinkAt, PtrAt, Linked, FrontsOk, Clean, CleanFor;
      var rc;
      ghost var j;
      rc, halted, j := DbFind(key);
      if halted || rc < 0 { return None, halted; }
      ghost var k := db.lists[Bucket(key)][j];
      ListedInRange(db, Bucket(key), j);
      ReadData(db.datas, k);
      assert dat[datoff..datoff + datlen][..datlen - 1] == db.datas[k];
      var s := ReadDat();
      return Some(s), false;
    }

    // ----- deleting -----

    /** Sets the data buffer and the key to all blanks. */
    method BlankBuffers()
      requires datlen > 0
      modifies this`idxbuf, this`datbuf
      ensures datbuf == Blanks(datlen - 1) && idxbuf == Blanks(|old(idxbuf)|)
    {
      var buf := "";
      while |buf| < datlen - 1
        invariant |buf| <= datlen - 1 && buf == Blanks(|buf|)
      {
        buf := buf + [SPACE];
      }
      datbuf := buf;
      var i := 0;
      buf := idxbuf;
      while i < |buf|
        invariant i <= |buf| == |idxbuf| && buf[..i] == Blanks(i)
      {
        buf := buf[i := SPACE];
        i := i + 1;
      }
      idxbuf := buf;
    }

    /** Deletes the record the cursor is on: _db_find has just found it. */
    method DoDelete(ghost l: nat, ghost j: nat)
      requires Valid() && 0 < l < |db.lists| && j < |db.lists[l]| && Clean(ViewOf(db), l)
      requires Located(l, j) && ptroff == SlotOff(db.x, SlotOf(db.lists, l, j))
      modifies this`idx, this`dat, this`pos, this`idxbuf, this`datbuf, this`idxoff, this`datoff, this`datlen, this`ptrval,
               this`db, this`contents
      ensures Valid() && db == Deleted(old(db), l, j) && contents == old(contents) - {old(idxbuf)}
      ensures |idx| == |old(idx)| && |dat| == |old(dat)|
    {
      ListedInRange(db, l, j);
      BlankBuffers();
      WriteDeleted(l, j);
    }

    /** ... and now all its writes. */
    method WriteDeleted(ghost l: nat, ghost j: nat)
      requires Valid() && 0 < l < |db.lists| && j < |db.lists[l]| && db.lists[l][j] < |db.x.recs| == |db.datas|
      requires ptroff == SlotOff(db.x, SlotOf(db.lists, l, j)) && Clean(ViewOf(db), l)
      requires var k := db.lists[l][j]; var r := db.x.recs[k];
               idxoff == Off(db.x.recs, k) && ptrval == r.next && datoff == r.datoff && datlen == r.datlen
               && idxbuf == Blanks(|r.key|) && datbuf == Blanks(|db.datas[k]|)
      modifies this`idx, this`dat, this`pos, this`idxbuf, this`idxoff, this`datoff, this`datlen, this`ptrval, this`db, this`contents
      ensures Valid() && db == Deleted(old(db), l, j) && contents == old(contents) - {old(db.x.recs[db.lists[l][j]].key)}
      ensures |idx| == |old(idx)| && |dat| == |old(dat)|
    {
      hide Inv, IsMap, Off, PrintIndex, PrintData, DeletedIndex, Drop, Push, SlotOff, SlotOf, Clean, ViewOf;
      ghost var key := db.x.recs[db.lists[l][j]].key;
      ListedInRange(db, l, j);
      WriteBlankData(l, j);
      WriteBlankIndex(l, j);
      DeleteKeeps(db, l, j, contents);
      db, contents := Deleted(db, l, j), contents - {key};
    }

    /** The data with blanks ... */
    method WriteBlankData(ghost l: nat, ghost j: nat)
      requires Inv(db) && l < |db.lists| && j < |db.lists[l]| && db.lists[l][j] < |db.datas|
      requires dat == PrintData(db.datas) && datbuf == Blanks(|db.datas[db.lists[l][j]]|)
      requires datoff == DataOff(db.datas, db.lists[l][j]) && datlen == |db.datas[db.lists[l][j]]| + 1
      modifies this`dat, this`datoff, this`datlen
      ensures dat == PrintData(db.datas[db.lists[l][j] := Blanks(|db.datas[db.lists[l][j]]|)]) && |dat| == |old(dat)|
      ensures datoff == old(datoff) && datlen == old(datlen)
    {
      hide Inv, PrintData, DataOff;
      ghost var k := db.lists[l][j];
      WriteData(db.datas, k, datbuf);
      ReadData(db.datas, k);
      WriteDat(datbuf, datoff, false);
    }

    /** ... then the record with blanks, the free pointer, and the pointer that led to the record. */
    method WriteBlankIndex(ghost l: nat, ghost j: nat)
      requires Inv(db) && 0 < l < |db.lists| && j < |db.lists[l]| && db.lists[l][j] < |db.x.recs|
      requires idx == PrintIndex(db.x) && ptroff == SlotOff(db.x, SlotOf(db.lists, l, j))
      requires var k := db.lists[l][j]; var r := db.x.recs[k];
               idxoff == Off(db.x.recs, k) && ptrval == r.next && datoff == r.datoff && datlen == r.datlen && idxbuf == Blanks(|r.key|)
      modifies this`idx, this`pos, this`idxbuf, this`idxoff, this`ptrval
      ensures idx == PrintIndex(DeletedIndex(db, l, j)) && |idx| == |old(idx)|
    {
      hide Inv, Off, PrintIndex, DeletedIndex, SlotOff, SlotOf, Atol, Field, Overwrite;
      ListCount(db);
      FreePointer(db);
      var freeptr := ReadPtr(FREE_OFF);
      var saveptr := ptrval;
      DeletedPrints(db, l, j);
      var h := WriteIdx(idxbuf, idxoff, false, freeptr);
      assert !h;
      var _ := WritePtr(FREE_OFF, idxoff);
      var _ := WritePtr(ptroff, saveptr);
    }

    method DbDelete(key: string) returns (rc: int, halted: bool)
      requires Valid()
      modifies this
      ensures Valid() && halted == !CleanFor(old(contents), Bucket(key))
      ensures !halted ==> rc == (if key in old(contents) then 0 else -1) && contents == old(contents) - {key}
      ensures |idx| == |old(idx)| && |dat| == |old(dat)|
    {
      var found;
      ghost var j;
      found, halted, j := DbFind(key);
      if halted { return -1, true; }
      if found == 0 {
        CleanIff(ViewOf(db), contents, Bucket(key));
        DoDelete(Bucket(key), j);
        return 0, false;
      }
      return -1, false;
    }

    // ----- storing -----

    /** Looks for a free record of exactly these sizes and takes it off the free list: 0 and the cursor
        on it, or -1 if there is none. */
    method FindFree(keylen: nat, len: nat) returns (rc: int, ghost j: nat)
      requires Valid()
      modifies this`idx, this`pos, this`idxbuf, this`idxoff, this`idxlen, this`datoff, this`datlen, this`ptrval
      ensures |db.lists| == HEADS && Linked(db.x, db.lists)
      ensures rc == if HasFree(db, keylen, len) then 0 else -1
      ensures rc == -1 ==> idx == old(idx)
      ensures rc == 0 ==> forall i: nat :: i < j ==> !FitsFree(db, i, keylen, len)
      ensures rc == 0 ==> FitsFree(db, j, keylen, len) && Located(0, j) && idx == PrintIndex(TakenIndex(db, j))
    {
      hide Fits, ListsOk, Covers, ExtentsOk, Represents, Off, PrintIndex, PrintData, LinkAt, PtrAt, TakenIndex;
      ListCount(db);
      var saveoffset := FREE_OFF;
      var offset := First(0, saveoffset);
      j := 0;
      while offset != 0
        invariant Valid() && idx == old(idx) && j <= |db.lists[0]|
        invariant offset == PtrTo(db.x, db.lists[0], j) && saveoffset == SlotOff(db.x, SlotOf(db.lists, 0, j))
        invariant forall i: nat :: i < j ==> !FitsFree(db, i, keylen, len)
        decreases |db.lists[0]| - j
      {
        var nextoffset, h := Step(0, j, offset);
        assert !h by { FreeReads(db, j); }
        if |idxbuf| == keylen && datlen == len { break; }
        saveoffset := offset;
        offset := nextoffset;
        j := j + 1;
      }
      if offset == 0 {
        rc := -1;
      } else {
        TakenPrints(db, j);
        assert FitsFree(db, j, keylen, len);
        var _ := WritePtr(saveoffset, ptrval);
        rc := 0;
      }
    }

    /** Adds a record at the end of both files and at the front of its chain. */
    method AppendRecord(key: string, data: string, ptr: nat) returns (halted: bool)
      requires Valid() && key !in contents && DATLEN_MIN <= |data| + 1 <= DATLEN_MAX && CleanFor(contents, Bucket(key))
      requires chainoff == Bucket(key) * PTR_SZ && |db.x.heads| == HEADS && ptr == db.x.heads[Bucket(key)]
      modifies this
      ensures halted == !CanAppend(|old(idx)|, |old(dat)|, key, |data| + 1)
      ensures !halted ==> Valid() && contents == old(contents)[key := data]
      ensures !halted ==> |dat| == |old(dat)| + |data| + 1 && |idx| == |old(idx)| + EntrySize(key, |old(dat)|, |data| + 1)
      ensures !halted ==> db == Appended(old(db), key, data)
    {
      hide Fits, Linked, Covers, ListsOk, ExtentsOk, Represents, Off, PrintIndex, PrintData, AppendedIndex, Push, FrontsOk, Clean, CleanFor;
      ListCount(db);
      CleanIff(ViewOf(db), contents, Bucket(key));
      AppendData(db.datas, data);
      DataTiles(db.datas);
      HeadFits(db.x, Bucket(key));
      WriteDat(data, 0, true);
      IndexSize(db);
      halted := WriteIdx(key, 0, true, ptr);
      if halted { return; }
      var at := idxoff;
      if at <= PTR_MAX {
        AppendedPrints(db, key, data);
        AppendKeeps(db, key, data, contents);
      }
      ChainInside(db.x, idx, key, ptr, datoff, datlen);
      PtrWidth(at);
      halted := WritePtr(chainoff, at);
      if halted { return; }
      db, contents := Appended(db, key, data), contents[key := data];
    }

    /** The four ways of storing: append, reuse, delete and append, overwrite. */
    method DbStore(key: string, data: string, flag: int) returns (rc: int, halted: bool)
      requires Valid()
      modifies this
      ensures halted == StoreHalts(old(db), old(contents), |old(idx)|, |old(dat)|, key, data, flag)
      ensures !halted ==> rc == StoreCode(old(contents), key, flag)
      ensures !halted ==> (rc == 1 <==> flag == 1 && key in old(contents))
      ensures !halted ==> (rc == -1 <==> !(1 <= flag <= 3) || (flag == 2 && key !in old(contents)))
      ensures !halted ==> -1 <= rc <= 1
      ensures !(1 <= flag <= 3) ==> !halted
      ensures 1 <= flag <= 3 && !(1 <= |data| <= 1023) ==> halted
      ensures !halted ==> Valid() && contents == if rc == 0 then old(contents)[key := data] else old(contents)
      ensures !halted ==> Grown(|old(idx)|, |old(dat)|, |idx|, |dat|, key, data,
                                rc == 0 && NeedsRoom(old(db), old(contents), key, data))
    {
      halted := false;
      if flag != DB_INSERT && flag != DB_REPLACE && flag != DB_STORE { return -1, false; }
      var keylen, len := |key|, |data| + 1;
      if len < DATLEN_MIN || len > DATLEN_MAX { return -1, true; }
      var found;
      ghost var j;
      found, halted, j := DbFind(key);
      if halted { return -1, true; }
      if found < 0 {
        if flag == DB_REPLACE { return -1, false; }
        rc, halted := Insert(key, data);
      } else {
        if flag == DB_INSERT { return 1, false; }
        rc, halted := Replace(key, data, j);
      }
    }

    /** The key is not there: reuse a free record, or append. */
    method Insert(key: string, data: string) returns (rc: int, halted: bool)
      requires Valid() && key !in contents && chainoff == Bucket(key) * PTR_SZ
      requires DATLEN_MIN <= |data| + 1 <= DATLEN_MAX && CleanFor(contents, Bucket(key))
      modifies this
      ensures rc == 0
      ensures halted == (!HasFree(old(db), |key|, |data| + 1) && !CanAppend(|old(idx)|, |old(dat)|, key, |data| + 1))
      ensures !halted ==> Valid() && contents == old(contents)[key := data]
      ensures !halted ==> Grown(|old(idx)|, |old(dat)|, |idx|, |dat|, key, data, !HasFree(old(db), |key|, |data| + 1))
    {
      rc, halted := 0, false;
      ListCount(db);
      DbImage.ReadPtr(db.x, Head(Bucket(key)));
      var p := ReadPtr(chainoff);
      var found, j := FindFree(|key|, |data| + 1);
      if found < 0 {
        halted := AppendRecord(key, data, p);
      } else {
        ReuseRecord(key, data, p, j);
      }
    }

    /** Fills the free record that FindFree has taken and puts it at the front of the key's chain. */
    method ReuseRecord(key: string, data: string, ptr: nat, ghost j: nat)
      requires Inv(db) && IsMap(db, contents) && dat == PrintData(db.datas) && key !in contents
      requires CleanFor(contents, Bucket(key))
      requires FitsFree(db, j, |key|, |data| + 1) && Located(0, j) && idx == PrintIndex(TakenIndex(db, j))
      requires chainoff == Bucket(key) * PTR_SZ && |db.x.heads| == HEADS && ptr == db.x.heads[Bucket(key)]
      modifies this
      ensures Valid() && contents == old(contents)[key := data]
      ensures |idx| == |PrintIndex(old(db).x)| && |dat| == |old(dat)|
      ensures db == Reused(old(db), j, key, data)
    {
      hide Fits, Linked, Covers, ListsOk, ExtentsOk, Represents, Off, PrintIndex, PrintData, TakenIndex, ReusedIndex, Drop, Push,
           FrontsOk, Clean, CleanFor;
      ghost var k := db.lists[0][j];
      ListedInRange(db, 0, j);
      WriteData(db.datas, k, data);
      SameDataSize(db.datas, k, data);
      WriteDat(data, datoff, false);
      HeadFits(db.x, Bucket(key));
      ReusedPrints(db, j, key);
      CleanIff(ViewOf(db), contents, Bucket(key));
      ReuseKeeps(db, j, key, data, contents);
      var h := WriteIdx(key, idxoff, false, ptr);
      assert !h;
      var _ := WritePtr(chainoff, idxoff);
      db, contents := Reused(db, j, key, data), contents[key := data];
    }

    /** The key is there: overwrite data of the same size, or delete and append. */
    method Replace(key: string, data: string, ghost j: nat) returns (rc: int, halted: bool)
      requires Valid() && key in contents && chainoff == Bucket(key) * PTR_SZ && CleanFor(contents, Bucket(key))
      requires DATLEN_MIN <= |data| + 1 <= DATLEN_MAX && |db.lists| == HEADS
      requires j < |db.lists[Bucket(key)]| && Located(Bucket(key), j) && idxbuf == key
      requires Keeps(ViewOf(db), key, j, db.lists[Bucket(key)][j])
      requires ptroff == SlotOff(db.x, SlotOf(db.lists, Bucket(key), j))
      modifies this
      ensures rc == 0
      ensures halted == (|data| != |old(contents)[key]| && !CanAppend(|old(idx)|, |old(dat)|, key, |data| + 1))
      ensures !halted ==> Valid() && contents == old(contents)[key := data]
      ensures !halted ==> Grown(|old(idx)|, |old(dat)|, |idx|, |dat|, key, data, |data| != |old(contents)[key]|)
    {
      hide Inv, IsMap, Off, PrintIndex, PrintData, SlotOff, SlotOf, CleanFor, Keeps, CanAppend;
      rc, halted := 0, false;
      ListedInRange(db, Bucket(key), j);
      FoundThere(db, contents, key, j);
      if |data| + 1 != datlen {
        halted := DeleteAndAppend(key, data, j);
      } else {
        ghost var k := db.lists[Bucket(key)][j];
        OverwritePrints(db, k, data);
        OverwriteKeeps(db, Bucket(key), j, data, contents);
        WriteDat(data, datoff, false);
        db, contents := Overwritten(db, k, data), contents[key := data];
      }
    }

    /** Data of another size: the record goes, and a new one is added at the end. */
    method DeleteAndAppend(key: string, data: string, ghost j: nat) returns (halted: bool)
      requires Valid() && key in contents && chainoff == Bucket(key) * PTR_SZ && CleanFor(contents, Bucket(key))
      requires DATLEN_MIN <= |data| + 1 <= DATLEN_MAX && |db.lists| == HEADS
      requires j < |db.lists[Bucket(key)]| && Located(Bucket(key), j) && idxbuf == key
      requires ptroff == SlotOff(db.x, SlotOf(db.lists, Bucket(key), j))
      modifies this
      ensures halted == !CanAppend(|old(idx)|, |old(dat)|, key, |data| + 1)
      ensures !halted ==> Valid() && contents == old(contents)[key := data]
      ensures !halted ==> |dat| == |old(dat)| + |data| + 1 && |idx| == |old(idx)| + EntrySize(key, |old(dat)|, |data| + 1)
    {
      hide Fits, Linked, Covers, ListsOk, ExtentsOk, Off, PrintIndex, PrintData, Deleted, SlotOff, SlotOf, FrontsOk, Clean, CanAppend;
      CleanIff(ViewOf(db), contents, Bucket(key));
      DoDelete(Bucket(key), j);
      ListCount(db);
      DbImage.ReadPtr(db.x, Head(Bucket(key)));
      HeadOffsets(db.x);
      var p := ReadPtr(chainoff);
      halted := AppendRecord(key, data, p);
      assert (old(contents) - {key})[key := data] == old(contents)[key := data];
    }

    // ----- scanning -----

    method DbRewind()
      requires Valid()
      modifies this`pos, this`idxoff
      ensures Valid() && pos == idxoff == Off(db.x.recs, 0) == 967
    {
      pos := (NHASH + 1) * PTR_SZ + 1;
      idxoff := pos;
    }

    /** Whether the buffer holds the key of an empty record. */
    method KeyIsBlank() returns (blank: bool)
      ensures blank == Blank(idxbuf) == forall i :: 0 <= i < |idxbuf| ==> idxbuf[i] == ' '
    {
      var p := 0;
      while p < |idxbuf| && idxbuf[p] == SPACE
        invariant p <= |idxbuf| && forall i :: 0 <= i < p ==> idxbuf[i] == SPACE
      {
        p := p + 1;
      }
      return p == |idxbuf|;
    }

    /** The next record whose key is not blank, from record k on.  It ends the process if that key has a
        separator in it. */
    method DbNextRec(ghost k: nat) returns (found: bool, halted: bool, key: string, data: string)
      requires Valid() && k <= |db.x.recs| && pos == Off(db.x.recs, k)
      modifies this`pos, this`idxbuf, this`datbuf, this`idxoff, this`idxlen, this`datoff, this`datlen, this`ptrval
      ensures Valid() && |db.x.recs| == |db.datas|
      ensures halted == (NextAt(db.x.recs, k) < |db.x.recs| && SEP in db.x.recs[NextAt(db.x.recs, k)].key)
      ensures !halted ==> found == (NextAt(db.x.recs, k) < |db.x.recs|)
      ensures !halted && found ==>
                var i := NextAt(db.x.recs, k);
                key == db.x.recs[i].key && data == db.datas[i] && pos == Off(db.x.recs, i + 1)
      ensures !halted && !found ==> pos == Off(db.x.recs, |db.x.recs|)
    {
      hide Linked, Covers, ListsOk, Represents, PrintIndex, PrintData, Off, Blank, FrontsOk;
      ghost var n := k;
      SameCount(db);
      var blank := true;
      while blank
        invariant Valid() && n <= |db.x.recs| && (blank ==> pos == Off(db.x.recs, n))
        invariant blank ==> NextAt(db.x.recs, n) == NextAt(db.x.recs, k)
        invariant !blank ==> n < |db.x.recs| && NextAt(db.x.recs, k) == n && pos == Off(db.x.recs, n + 1) && SEP !in db.x.recs[n].key
        invariant !blank ==> idxbuf == db.x.recs[n].key && datoff == db.x.recs[n].datoff && datlen == db.x.recs[n].datlen
        decreases |db.x.recs| - n, blank
      {
        var next, h := ReadNext(n);
        SeparatorIsNotBlank(db.x.recs, n);
        if h { return false, true, "", ""; }
        if next < 0 { return false, false, "", ""; }
        blank := KeyIsBlank();
        if blank { n := n + 1; }
      }
      key := idxbuf;
      assert ExtentAt(db.x.recs, db.datas, n);
      ReadData(db.datas, n);
      assert dat[datoff..datoff + datlen][..datlen - 1] == db.datas[n];
      data := ReadDat();
      found, halted := true, false;
    }

    /** _db_readidx at the current position, which is where record n starts or the file ends. */
    method ReadNext(ghost n: nat) returns (next: int, halted: bool)
      requires Valid() && n <= |db.x.recs| && pos == Off(db.x.recs, n)
      modifies this`pos, this`idxbuf, this`idxoff, this`idxlen, this`datoff, this`datlen, this`ptrval
      ensures Valid() && halted == (n < |db.x.recs| && SEP in db.x.recs[n].key)
      ensures !halted ==> next == (if n == |db.x.recs| then -1 else db.x.recs[n].next)
      ensures !halted && n < |db.x.recs| ==>
                pos == Off(db.x.recs, n + 1) && idxbuf == db.x.recs[n].key
                && datoff == db.x.recs[n].datoff && datlen == db.x.recs[n].datlen
      ensures n == |db.x.recs| ==> pos == old(pos)
    {
      hide Linked, Covers, ListsOk, Represents, PrintIndex, PrintData, ParseAt, Off, FrontsOk;
      IndexTiles(db.x);
      if n < |db.x.recs| { ReadRec(db.x, n); }
      next, halted := ReadIdx(0);
    }

    /** db_rewind and then db_nextrec until it returns nothing, or ends the process: exactly when the map
        has a key with a separator in it. */
    method ScanAll() returns (pairs: seq<Pair>, halted: bool)
      requires Valid()
      modifies this`pos, this`idxbuf, this`datbuf, this`idxoff, this`idxlen, this`datoff, this`datlen, this`ptrval
      ensures Valid() && |db.x.recs| == |db.datas| && halted == (exists key :: key in contents && SEP in key)
      ensures pairs <= Listing(db.x.recs, db.datas, 0) && (!halted ==> pairs == Listing(db.x.recs, db.datas, 0))
      ensures !halted ==>
                forall key, data :: Pair(key, data) in pairs <==> !Blank(key) && key in contents && contents[key] == data
      ensures !halted ==> forall a, b :: 0 <= a < b < |pairs| ==> pairs[a].key != pairs[b].key
    {
      hide PrintIndex, PrintData, Off, Blank, Listing, NextAt, Inv, IsMap, Parses;
      DbRewind();
      SameCount(db);
      NothingPassed(db.x.recs);
      ghost var k := 0;
      pairs, halted := [], false;
      var found, key, data := true, "", "";
      while found && !halted
        invariant Valid() && |db.x.recs| == |db.datas| && k <= |db.x.recs|
        invariant found ==> pos == Off(db.x.recs, k) && pairs + Listing(db.x.recs, db.datas, k) == Listing(db.x.recs, db.datas, 0)
        invariant !found ==> pairs == Listing(db.x.recs, db.datas, 0) && k == |db.x.recs|
        invariant !halted && Parses(db.x.recs, k)
        decreases |db.x.recs| - k, found
      {
        ListingFrom(db.x.recs, db.datas, k, pairs);
        ghost var i := NextAt(db.x.recs, k);
        PassedParse(db.x.recs, k);
        found, halted, key, data := DbNextRec(k);
        if halted {
          ScanMeets(db, contents, i);
          return;
        }
        if found {
          pairs := pairs + [Pair(key, data)];
          k := i + 1;
        } else {
          k := i;
        }
      }
      ScanIsExact(db, contents);
      AllParse(db, contents);
    }

    // ----- whole sequences of operations -----

    /** One operation answers as a plain map would, if it does not end the process. */
    method Serve(op: Request) returns (answer: Answer, halted: bool)
      requires Valid()
      modifies this
      ensures halted == (WalksSpoiled(old(contents), op)
                         || (op.Store? && StoreHalts(old(db), old(contents), |old(idx)|, |old(dat)|, op.key, op.data, op.flag)))
      ensures !halted ==> Valid() && (contents, answer) == MapStep(old(contents), op)
      ensures !halted ==> AnswersFor(old(contents), op, answer, contents)
    {
      hide Inv, IsMap, PrintIndex, PrintData, Grown, CleanFor;
      halted, answer := false, Code(0);
      match op {
        case Store(key, data, flag) =>
          var rc;
          rc, halted := DbStore(key, data, flag);
          answer := Code(rc);
        case Fetch(key) =>
          var data;
          data, halted := DbFetch(key);
          answer := Data(data);
        case Delete(key) =>
          var rc;
          rc, halted := DbDelete(key);
          answer := Code(rc);
      }
    }

    /** Any sequence of operations answers as a plain map would, up to the operation that ends the
        process, if one does: the first that walks a chain on which the map by then has a key with a
        separator in it, or a store that halts. */
    method RunAll(ops: seq<Request>) returns (answers: seq<Answer>, halted: bool)
      requires Valid()
      modifies this
      ensures |answers| <= |ops| && halted == (|answers| < |ops|)
      ensures answers == MapAnswers(old(contents), ops[..|answers|])
      ensures AnswersAll(old(contents), ops, answers)
      ensures !halted ==> Valid() && contents == MapAfter(old(contents), ops)
      ensures halted ==> MayHalt(MapAfter(old(contents), ops[..|answers|]), ops[|answers|])
      ensures forall k :: 0 <= k < |answers| ==> !WalksSpoiled(MapAfter(old(contents), ops[..k]), ops[k])
    {
      hide Inv, IsMap, PrintIndex, PrintData, MapStep, WalksSpoiled, StoreHalts, AnswersFor, AnswersAll;
      NoAnswers(contents, ops);
      answers, halted := [], false;
      var k := 0;
      while k < |ops|
        invariant 0 <= k <= |ops| && Valid() && |answers| == k && !halted
        invariant answers == MapAnswers(old(contents), ops[..k]) && contents == MapAfter(old(contents), ops[..k])
        invariant forall i :: 0 <= i < k ==> !WalksSpoiled(MapAfter(old(contents), ops[..i]), ops[i])
        invariant AnswersAll(old(contents), ops, answers)
      {
        assert ops[..k + 1][..k] == ops[..k];
        ghost var m, before, x, y := contents, db, |idx|, |dat|;
        var answer;
        answer, halted := Serve(ops[k]);
        if halted {
          HaltsOnlyThen(before, m, x, y, ops[k]);
          return;
        }
        MoreAnswers(old(contents), ops, answers, answer);
        answers := answers + [answer];
        k := k + 1;
      }
      assert ops[..k] == ops;
    }
  }

  /** The operation walks a chain on which the map has a key with a separator in it. */
  ghost predicate WalksSpoiled(m: map<string, string>, op: Request) {
    (op.Store? ==> LegalFlag(op.flag) && DATLEN_MIN <= |op.data| + 1 <= DATLEN_MAX) && !CleanFor(m, Bucket(op.key))
  }

  /** What can end the process: walking such a chain, data of no legal size, or a store that goes through. */
  ghost predicate MayHalt(m: map<string, string>, op: Request) {
    WalksSpoiled(m, op)
    || (op.Store? && LegalFlag(op.flag)
        && (!(DATLEN_MIN <= |op.data| + 1 <= DATLEN_MAX) || StoreCode(m, op.key, op.flag) == 0))
  }

  lemma HaltsOnlyThen(db: Db, m: map<string, string>, idxSize: nat, datSize: nat, op: Request)
    requires WalksSpoiled(m, op) || (op.Store? && StoreHalts(db, m, idxSize, datSize, op.key, op.data, op.flag))
    ensures MayHalt(m, op)
  {
  }

  predicate LegalFlag(flag: int) {
    flag == DB_INSERT || flag == DB_REPLACE || flag == DB_STORE
  }

  // ----- the plain map -----

  datatype Request = Store(key: string, data: string, flag: int) | Fetch(key: string) | Delete(key: string)

  datatype Answer = Code(rc: int) | Data(data: Option<string>)

  function MapStep(m: map<string, string>, op: Request): (map<string, string>, Answer) {
    match op
    case Store(key, data, flag) =>
      var rc := StoreCode(m, key, flag);
      (if rc == 0 then m[key := data] else m, Code(rc))
    case Fetch(key) => (m, Data(if key in m then Some(m[key]) else None))
    case Delete(key) => (m - {key}, Code(if key in m then 0 else -1))
  }

  /** What each operation answers, and the map after it.  A store with DB_INSERT, 1, of a key that is there
      is answered 1; one of a flag other than 1, 2, 3 or with DB_REPLACE, 2, of a key that is not there, -1;
      else the data is stored, and the answer is 0. */
  ghost predicate AnswersFor(m: map<string, string>, op: Request, answer: Answer, after: map<string, string>) {
    match op
    case Store(key, data, flag) =>
      (answer == Code(1) <==> flag == 1 && key in m)
      && (answer == Code(-1) <==> flag < 1 || flag > 3 || (flag == 2 && key !in m))
      && (if answer == Code(1) || answer == Code(-1) then after == m else answer == Code(0) && after == m[key := data])
    case Fetch(key) =>
      after == m && if key in m then answer == Data(Some(m[key])) else answer == Data(None)
    case Delete(key) =>
      key !in after && (forall other :: other != key ==> (other in after <==> other in m))
      && (forall other :: other in after ==> after[other] == m[other])
      && answer == if key in m then Code(0) else Code(-1)
  }

  ghost predicate AnswersAll(m: map<string, string>, ops: seq<Request>, answers: seq<Answer>) {
    |answers| <= |ops|
    && forall k :: 0 <= k < |answers| ==> AnswersFor(MapAfter(m, ops[..k]), ops[k], answers[k], MapAfter(m, ops[..k + 1]))
  }

  lemma NoAnswers(m: map<string, string>, ops: seq<Request>)
    ensures AnswersAll(m, ops, [])
  {
  }

  lemma MoreAnswers(m: map<string, string>, ops: seq<Request>, answers: seq<Answer>, answer: Answer)
    requires AnswersAll(m, ops, answers) && |answers| < |ops|
    requires var k := |answers|; AnswersFor(MapAfter(m, ops[..k]), ops[k], answer, MapAfter(m, ops[..k + 1]))
    ensures AnswersAll(m, ops, answers + [answer])
  {
    hide AnswersFor, MapAfter;
  }

  function MapAfter(m: map<string, string>, ops: seq<Request>): map<string, string> {
    if ops == [] then m else MapStep(MapAfter(m, ops[..|ops| - 1]), ops[|ops| - 1]).0
  }

  function MapAnswers(m: map<string, string>, ops: seq<Request>): seq<Answer> {
    if ops == [] then []
    else MapAnswers(m, ops[..|ops| - 1]) + [MapStep(MapAfter(m, ops[..|ops| - 1]), ops[|ops| - 1]).1]
  }

  /** 0 stored, 1 the key exists and DB_INSERT was asked for, -1 otherwise. */
  function StoreCode(m: map<string, string>, key: string, flag: int): int {
    if flag != DB_INSERT && flag != DB_REPLACE && flag != DB_STORE then -1
    else if key !in m then (if flag == DB_REPLACE then -1 else 0)
    else if flag == DB_INSERT then 1 else 0
  }

  /** The process ends on data of no legal size, when the key's chain cannot be walked, and when a record
      has to go to the end of the files but lies too far out for a pointer or is too long or short. */
  ghost predicate StoreHalts(db: Db, m: map<string, string>, idxSize: nat, datSize: nat, key: string, data: string, flag: int) {
    LegalFlag(flag)
    && (!(DATLEN_MIN <= |data| + 1 <= DATLEN_MAX) || !CleanFor(m, Bucket(key))
        || (StoreCode(m, key, flag) == 0 && NeedsRoom(db, m, key, data) && !CanAppend(idxSize, datSize, key, |data| + 1)))
  }

  /** Which stores put a record at the end of the files: those of a new key that no free record fits,
      and those that change the size of a key's data.  The others write where something was. */
  ghost predicate NeedsRoom(db: Db, m: map<string, string>, key: string, data: string) {
    if key in m then |m[key]| != |data| else !HasFree(db, |key|, |data| + 1)
  }

  function EntrySize(key: string, datoff: nat, datlen: nat): nat {
    PTR_SZ + IDXLEN_SZ + |Text(key, datoff, datlen)|
  }

  /** By how much the files have grown: by one record, or not at all. */
  predicate Grown(idx: nat, dat: nat, idxAfter: nat, datAfter: nat, key: string, data: string, appended: bool) {
    if appended then datAfter == dat + |data| + 1 && idxAfter == idx + EntrySize(key, dat, |data| + 1)
    else datAfter == dat && idxAfter == idx
  }

  // ----- small facts the methods use -----

  lemma HeadOffsets(x: Index)
    requires Fits(x)
    ensures forall l: nat :: l < HEADS ==> SlotIn(x, Head(l)) && SlotOff(x, Head(l)) == l * PTR_SZ
  {
  }

  lemma FreePointer(db: Db)
    requires Inv(db)
    ensures PTR_SZ <= |PrintIndex(db.x)| && Atol(PrintIndex(db.x)[FREE_OFF..FREE_OFF + PTR_SZ]) == db.x.heads[0]
  {
    DbImage.ReadPtr(db.x, Head(0));
  }

  lemma FoundThere(db: Db, m: map<string, string>, key: string, j: nat)
    requires Inv(db) && IsMap(db, m) && Bucket(key) < |db.lists| && j < |db.lists[Bucket(key)]|
    requires Keeps(ViewOf(db), key, j, db.lists[Bucket(key)][j])
    ensures db.lists[Bucket(key)][j] < |db.datas| && db.lists[Bucket(key)][j] < |db.x.recs|
    ensures key in m && m[key] == db.datas[db.lists[Bucket(key)][j]] && db.x.recs[db.lists[Bucket(key)][j]].key == key
    ensures db.x.recs[db.lists[Bucket(key)][j]].datlen == |m[key]| + 1
    ensures db.x.recs[db.lists[Bucket(key)][j]].datoff == DataOff(db.datas, db.lists[Bucket(key)][j])
  {
    ListedInRange(db, Bucket(key), j);
  }

  /** The first record of a chain can be read exactly when all can. */
  lemma ChainReads(db: Db, m: map<string, string>, l: nat)
    requires Inv(db) && IsMap(db, m) && 0 < l < |db.lists|
    ensures CleanFor(m, l) ==> forall j: nat :: j < |db.lists[l]| ==> db.lists[l][j] < |db.x.recs| && SEP !in db.x.recs[db.lists[l][j]].key
    ensures !CleanFor(m, l) ==> |db.lists[l]| > 0 && db.lists[l][0] < |db.x.recs| && SEP in db.x.recs[db.lists[l][0]].key
  {
    var v := ViewOf(db);
    CleanIff(v, m, l);
    assert Clean(v, l) || SpoiledFront(v, l);
    forall j: nat | j < |db.lists[l]| ensures db.lists[l][j] < |db.x.recs| && (Clean(v, l) ==> SEP !in db.x.recs[db.lists[l][j]].key) {
      assert At(v.lists, l, j, db.lists[l][j]);
    }
  }

  lemma FreeReads(db: Db, j: nat)
    requires Inv(db) && j < |db.lists[0]|
    ensures db.lists[0][j] < |db.x.recs| && SEP !in db.x.recs[db.lists[0][j]].key
  {
    assert At(ViewOf(db).lists, 0, j, db.lists[0][j]);
  }

  lemma HeadFits(x: Index, l: nat)
    requires Fits(x) && l < HEADS
    ensures |x.heads| == HEADS && x.heads[l] <= PTR_MAX
  {
  }

  lemma IndexSize(db: Db)
    requires Inv(db)
    ensures |PrintIndex(db.x)| == Off(db.x.recs, |db.x.recs|) && |PrintData(db.datas)| == DataOff(db.datas, |db.datas|)
  {
    IndexTiles(db.x);
    DataTiles(db.datas);
  }

  lemma ChainInside(x: Index, file: string, key: string, ptr: nat, datoff: nat, datlen: nat)
    requires Fits(x) && file == Overwrite(PrintIndex(x), |PrintIndex(x)|, Entry(ptr, key, datoff, datlen))
    requires ptr <= PTR_MAX && |Text(key, datoff, datlen)| <= IDXLEN_MAX
    ensures Bucket(key) * PTR_SZ + PTR_SZ <= |file| && |file| == |PrintIndex(x)| + EntrySize(key, datoff, datlen)
  {
    DbImage.ReadPtr(x, Head(Bucket(key)));
    FieldWidths(ptr, |Text(key, datoff, datlen)|);
  }

  lemma PtrWidth(ptr: nat)
    ensures ptr <= PTR_MAX ==> |Field(ptr, PTR_SZ)| == PTR_SZ
  {
    if ptr <= PTR_MAX { FieldWidths(ptr, 0); }
  }

  lemma SameDataSize(datas: seq<string>, k: nat, data: string)
    requires k < |datas| && |data| == |datas[k]|
    ensures |PrintData(datas[k := data])| == |PrintData(datas)|
  {
    DataTiles(datas);
    DataTiles(datas[k := data]);
    DataOffsStay(datas, datas[k := data], |datas|);
  }

  lemma OverwritePrints(db: Db, k: nat, data: string)
    requires k < |db.datas| && |data| == |db.datas[k]|
    ensures var w := Overwritten(db, k, data); var at := DataOff(db.datas, k);
            w.x == db.x && at <= |PrintData(db.datas)| && |PrintData(w.datas)| == |PrintData(db.datas)|
            && Overwrite(PrintData(db.datas), at, data + [NEWLINE]) == PrintData(w.datas)
  {
    WriteData(db.datas, k, data);
    SameDataSize(db.datas, k, data);
  }
}
