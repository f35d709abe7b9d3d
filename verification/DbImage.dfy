/** SimpleDB's two files as tilings: the index file is the free pointer, the hash table, a newline
    and one block per record; the data file one block per record.  A write that keeps a block's
    length changes that block alone. */
module DbImage {
  import opened Commands
  import opened DbCodec

  // ----- files made of blocks -----

  function Flatten(blocks: seq<string>): string {
    if blocks == [] then [] else Flatten(blocks[..|blocks| - 1]) + blocks[|blocks| - 1]
  }

  function Start(blocks: seq<string>, i: nat): nat
    requires i <= |blocks|
  {
    |Flatten(blocks[..i])|
  }

  /** write() at a position: it replaces what is there and extends the file if need be. */
  function Overwrite(file: string, at: nat, bytes: string): string
    requires at <= |file|
  {
    file[..at] + bytes + if at + |bytes| < |file| then file[at + |bytes|..] else []
  }

  lemma {:induction false} FlattenSplits(blocks: seq<string>, i: nat)
    requires i < |blocks|
    ensures Flatten(blocks) == Flatten(blocks[..i]) + blocks[i] + Flatten(blocks[i + 1..])
    ensures Start(blocks, i) + |blocks[i]| == Start(blocks, i + 1) <= |Flatten(blocks)|
  {
    var n := |blocks| - 1;
    assert blocks[..i + 1][..i] == blocks[..i];
    if i == n {
      assert blocks[..i + 1] == blocks;
    } else {
      FlattenSplits(blocks[..n], i);
      assert blocks[..n][..i] == blocks[..i] && blocks[..n][i + 1..] == blocks[i + 1..n];
      assert blocks[i + 1..][..|blocks[i + 1..]| - 1] == blocks[i + 1..n];
    }
  }

  lemma NextStart(blocks: seq<string>, i: nat)
    requires i < |blocks|
    ensures Start(blocks, i + 1) == Start(blocks, i) + |blocks[i]|
  {
    FlattenSplits(blocks, i);
  }

  lemma BlockAt(blocks: seq<string>, i: nat)
    requires i < |blocks|
    ensures Start(blocks, i) + |blocks[i]| <= |Flatten(blocks)|
    ensures Flatten(blocks)[Start(blocks, i)..Start(blocks, i) + |blocks[i]|] == blocks[i]
  {
    FlattenSplits(blocks, i);
  }

  /** Writing no more than a block holds at its start replaces the front of that block. */
  lemma OverwriteBlock(blocks: seq<string>, i: nat, bytes: string)
    requires i < |blocks| && |bytes| <= |blocks[i]|
    ensures Start(blocks, i) <= |Flatten(blocks)|
    ensures Overwrite(Flatten(blocks), Start(blocks, i), bytes) == Flatten(blocks[i := bytes + blocks[i][|bytes|..]])
  {
    var changed := blocks[i := bytes + blocks[i][|bytes|..]];
    FlattenSplits(blocks, i);
    FlattenSplits(changed, i);
    assert changed[..i] == blocks[..i] && changed[i + 1..] == blocks[i + 1..];
    var a, b, c := Flatten(blocks[..i]), blocks[i], Flatten(blocks[i + 1..]);
    OverwriteMiddle(a, b, c, bytes);
  }

  lemma OverwriteMiddle(a: string, b: string, c: string, bytes: string)
    requires |bytes| <= |b|
    ensures Overwrite(a + b + c, |a|, bytes) == a + (bytes + b[|bytes|..]) + c
  {
    var file := a + b + c;
    assert file[..|a|] == a;
    assert file[|a| + |bytes|..] == b[|bytes|..] + c;
  }

  lemma OverwriteEnd(blocks: seq<string>, bytes: string)
    ensures Overwrite(Flatten(blocks), |Flatten(blocks)|, bytes) == Flatten(blocks + [bytes])
    ensures Start(blocks + [bytes], |blocks|) == |Flatten(blocks)|
  {
    assert (blocks + [bytes])[..|blocks|] == blocks;
  }

  // ----- the index file -----

  /** A record of the index: where the next one of its chain is, its key, and its data's extent. */
  datatype IdxRec = IdxRec(next: nat, key: string, datoff: nat, datlen: nat)

  /** The free pointer and the 137 chain heads, then the records in file order. */
  datatype Index = Index(heads: seq<nat>, recs: seq<IdxRec>)

  const HEADS := NHASH + 1
  const HEADER := HEADS * PTR_SZ + 1

  function RecText(r: IdxRec): string {
    Entry(r.next, r.key, r.datoff, r.datlen)
  }

  function RecLen(r: IdxRec): nat {
    PTR_SZ + IDXLEN_SZ + |Text(r.key, r.datoff, r.datlen)|
  }

  predicate RecFits(r: IdxRec) {
    EntryFits(r.next, r.key, r.datoff, r.datlen)
  }

  /** Every pointer and every length fits its field. */
  ghost predicate Fits(x: Index) {
    |x.heads| == HEADS
    && (forall l :: 0 <= l < |x.heads| ==> x.heads[l] <= PTR_MAX)
    && forall k :: 0 <= k < |x.recs| ==> RecFits(x.recs[k])
  }

  function Blocks(x: Index): seq<string> {
    seq(|x.heads|, l requires 0 <= l < |x.heads| => Field(x.heads[l], PTR_SZ)) + [[NEWLINE]]
    + seq(|x.recs|, k requires 0 <= k < |x.recs| => RecText(x.recs[k]))
  }

  function PrintIndex(x: Index): string {
    Flatten(Blocks(x))
  }

  /** How long the records before the k-th are together. */
  function Lengths(recs: seq<IdxRec>, k: nat): nat
    requires k <= |recs|
  {
    if k == 0 then 0 else Lengths(recs, k - 1) + RecLen(recs[k - 1])
  }

  /** The offset of the k-th record; of the end of the file, when there is none. */
  function Off(recs: seq<IdxRec>, k: nat): (at: nat)
    requires k <= |recs|
    ensures at >= HEADER
  {
    HEADER + Lengths(recs, k)
  }

  lemma HeadBlock(x: Index, l: nat)
    requires Fits(x) && l < |x.heads|
    ensures l < |Blocks(x)| && Blocks(x)[l] == Field(x.heads[l], PTR_SZ) && |Field(x.heads[l], PTR_SZ)| == PTR_SZ
  {
    hide Field;
    FieldWidths(x.heads[l], 0);
  }

  lemma RecBlock(x: Index, k: nat)
    requires Fits(x) && k < |x.recs|
    ensures HEADS + 1 + k < |Blocks(x)| && Blocks(x)[HEADS + 1 + k] == RecText(x.recs[k])
    ensures |RecText(x.recs[k])| >= PTR_SZ && RecText(x.recs[k])[..PTR_SZ] == Field(x.recs[k].next, PTR_SZ)
  {
    hide Field, Text;
    var r := x.recs[k];
    FieldWidths(r.next, |Text(r.key, r.datoff, r.datlen)|);
  }

  lemma {:induction false} HeadStarts(x: Index, l: nat)
    requires Fits(x) && l <= HEADS
    ensures l <= |Blocks(x)| && Start(Blocks(x), l) == l * PTR_SZ
    decreases l
  {
    var b := Blocks(x);
    if l == 0 {
      assert b[..0] == [];
    } else {
      HeadStarts(x, l - 1);
      HeadBlock(x, l - 1);
      NextStart(b, l - 1);
    }
  }

  lemma RecWidth(r: IdxRec)
    requires RecFits(r)
    ensures |RecText(r)| == RecLen(r)
  {
    FieldWidths(r.next, |Text(r.key, r.datoff, r.datlen)|);
  }

  lemma MiddleBlock(x: Index)
    requires |x.heads| == HEADS
    ensures |Blocks(x)| == HEADS + 1 + |x.recs| && Blocks(x)[HEADS] == [NEWLINE]
  {
  }

  lemma {:induction false} RecStarts(x: Index, k: nat)
    requires Fits(x) && k <= |x.recs|
    ensures k <= |x.recs| && HEADS + 1 + k <= |Blocks(x)| && Start(Blocks(x), HEADS + 1 + k) == Off(x.recs, k)
    decreases k
  {
    hide Blocks, Start, RecText, RecLen, Field, RecFits;
    MiddleBlock(x);
    var b := Blocks(x);
    if k == 0 {
      HeadStarts(x, HEADS);
      MiddleBlock(x);
      NextStart(b, HEADS);
    } else {
      RecStarts(x, k - 1);
      RecWidth(x.recs[k - 1]);
      RecBlock(x, k - 1);
      NextStart(b, HEADS + k);
    }
  }

  /** The records tile the file from the header to its end. */
  lemma IndexTiles(x: Index)
    requires Fits(x)
    ensures |PrintIndex(x)| == Off(x.recs, |x.recs|)
    ensures forall k :: 0 <= k < |x.recs| ==> Off(x.recs, k) + RecLen(x.recs[k]) == Off(x.recs, k + 1)
  {
    RecStarts(x, |x.recs|);
    assert Blocks(x)[..HEADS + 1 + |x.recs|] == Blocks(x);
  }

  lemma {:induction false} OffsGrow(recs: seq<IdxRec>, j: nat, k: nat)
    requires j < k <= |recs|
    ensures HEADER <= Off(recs, j) < Off(recs, k)
    decreases k
  {
    if j < k - 1 { OffsGrow(recs, j, k - 1); }
  }

  /** Offsets only depend on keys and extents, and on those only through lengths. */
  lemma {:induction false} OffsStay(a: seq<IdxRec>, b: seq<IdxRec>, k: nat)
    requires k <= |a| && k <= |b| && forall j :: 0 <= j < k ==> RecLen(a[j]) == RecLen(b[j])
    ensures Off(a, k) == Off(b, k)
  {
    if k > 0 { OffsStay(a, b, k - 1); }
  }

  // ----- pointer fields -----

  /** The field that list l's head, or record k's next, is kept in. */
  datatype Slot = Head(l: nat) | Next(k: nat)

  predicate SlotIn(x: Index, s: Slot) {
    match s
    case Head(l) => l < |x.heads|
    case Next(k) => k < |x.recs|
  }

  function SlotOff(x: Index, s: Slot): nat
    requires SlotIn(x, s)
  {
    match s
    case Head(l) => l * PTR_SZ
    case Next(k) => Off(x.recs, k)
  }

  function PtrAt(x: Index, s: Slot): nat
    requires SlotIn(x, s)
  {
    match s
    case Head(l) => x.heads[l]
    case Next(k) => x.recs[k].next
  }

  function SetPtr(x: Index, s: Slot, p: nat): Index
    requires SlotIn(x, s)
  {
    match s
    case Head(l) => x.(heads := x.heads[l := p])
    case Next(k) => x.(recs := x.recs[k := x.recs[k].(next := p)])
  }

  function SetRec(x: Index, k: nat, r: IdxRec): Index
    requires k < |x.recs|
  {
    x.(recs := x.recs[k := r])
  }

  function SlotBlock(s: Slot): nat {
    match s
    case Head(l) => l
    case Next(k) => HEADS + 1 + k
  }

  lemma SlotStarts(x: Index, s: Slot)
    requires Fits(x) && SlotIn(x, s)
    ensures SlotBlock(s) < |Blocks(x)| && Start(Blocks(x), SlotBlock(s)) == SlotOff(x, s)
    ensures |Blocks(x)[SlotBlock(s)]| >= PTR_SZ && Blocks(x)[SlotBlock(s)][..PTR_SZ] == Field(PtrAt(x, s), PTR_SZ)
  {
    hide Field, Text, Blocks, Start, Off, RecText, RecFits;
    match s
    case Head(l) =>
      HeadStarts(x, l);
      HeadBlock(x, l);
    case Next(k) =>
      RecStarts(x, k);
      RecBlock(x, k);
  }

  /** _db_readptr on a pointer field yields the pointer. */
  lemma ReadPtr(x: Index, s: Slot)
    requires Fits(x) && SlotIn(x, s)
    ensures SlotOff(x, s) + PTR_SZ <= |PrintIndex(x)|
    ensures Atol(PrintIndex(x)[SlotOff(x, s)..SlotOff(x, s) + PTR_SZ]) == PtrAt(x, s)
  {
    hide Flatten, Start, Text, Atol, SlotOff, Blocks;
    var b, i := Blocks(x), SlotBlock(s);
    SlotStarts(x, s);
    BlockAt(b, i);
    SliceOfSlice(Flatten(b), Start(b, i), |b[i]|, 0, PTR_SZ);
    assert b[i][0..PTR_SZ] == b[i][..PTR_SZ];
    FieldReadsBack(PtrAt(x, s), PTR_SZ);
  }

  /** _db_writeptr on a pointer field changes that pointer and nothing else. */
  lemma WritePtr(x: Index, s: Slot, p: nat)
    requires Fits(x) && SlotIn(x, s) && p <= PTR_MAX
    ensures Fits(SetPtr(x, s, p)) && SlotOff(x, s) <= |PrintIndex(x)|
    ensures Overwrite(PrintIndex(x), SlotOff(x, s), Field(p, PTR_SZ)) == PrintIndex(SetPtr(x, s, p))
  {
    var b, i := Blocks(x), SlotBlock(s);
    SlotStarts(x, s);
    FieldWidths(p, 0);
    OverwriteBlock(b, i, Field(p, PTR_SZ));
    SetPtrBlocks(x, s, p);
  }

  lemma SetPtrBlocks(x: Index, s: Slot, p: nat)
    requires Fits(x) && SlotIn(x, s) && p <= PTR_MAX
    requires SlotBlock(s) < |Blocks(x)| && |Blocks(x)[SlotBlock(s)]| >= PTR_SZ
    ensures Blocks(SetPtr(x, s, p)) == Blocks(x)[SlotBlock(s) := Field(p, PTR_SZ) + Blocks(x)[SlotBlock(s)][PTR_SZ..]]
  {
    hide Field, Text, RecText, RecFits;
    match s
    case Head(l) =>
      HeadBlock(x, l);
      assert Field(p, PTR_SZ) + Field(x.heads[l], PTR_SZ)[PTR_SZ..] == Field(p, PTR_SZ);
    case Next(k) =>
      RecBlock(x, k);
      NextText(x.recs[k], p);
  }

  lemma NextText(r: IdxRec, p: nat)
    requires RecFits(r)
    ensures |RecText(r)| >= PTR_SZ && RecText(r.(next := p)) == Field(p, PTR_SZ) + RecText(r)[PTR_SZ..]
  {
    hide Field, Text;
    FieldWidths(r.next, 0);
    assert RecText(r)[PTR_SZ..] == Field(|Text(r.key, r.datoff, r.datlen)|, IDXLEN_SZ) + Text(r.key, r.datoff, r.datlen);
  }

  /** _db_readidx at a record's offset yields the record, unless its key has a separator in it: then it
      does not parse. */
  lemma ReadRec(x: Index, k: nat)
    requires Fits(x) && k < |x.recs|
    ensures var r := x.recs[k];
            Off(x.recs, k) + RecLen(r) <= |PrintIndex(x)|
            && ParseAt(PrintIndex(x), Off(x.recs, k))
               == if SEP in r.key then None else Some(Parsed(r.next, RecLen(r) - PTR_SZ - IDXLEN_SZ, r.key, r.datoff, r.datlen))
  {
    var r, b, i := x.recs[k], Blocks(x), HEADS + 1 + k;
    hide Flatten, Start, Text, Off, ParseAt;
    RecStarts(x, k);
    RecWidth(r);
    BlockAt(b, i);
    assert b[i] == RecText(r);
    EntryReadsBack(PrintIndex(x), Off(x.recs, k), r.next, r.key, r.datoff, r.datlen);
  }

  /** _db_writeidx over a record of the same length replaces that record and nothing else. */
  lemma WriteRec(x: Index, k: nat, r: IdxRec)
    requires Fits(x) && k < |x.recs| && RecFits(r) && RecLen(r) == RecLen(x.recs[k])
    ensures Fits(SetRec(x, k, r)) && Off(x.recs, k) <= |PrintIndex(x)|
    ensures Overwrite(PrintIndex(x), Off(x.recs, k), RecText(r)) == PrintIndex(SetRec(x, k, r))
  {
    hide Flatten, Start, Text, Overwrite, Off, RecText;
    var b, i := Blocks(x), HEADS + 1 + k;
    RecStarts(x, k);
    RecWidth(r);
    RecWidth(x.recs[k]);
    OverwriteBlock(b, i, RecText(r));
    assert b[i] == RecText(x.recs[k]);
    assert RecText(r) + b[i][|RecText(r)|..] == RecText(r);
    assert Blocks(SetRec(x, k, r)) == b[i := RecText(r)];
  }

  /** _db_writeidx at the end of the file adds a record. */
  lemma AppendRec(x: Index, r: IdxRec)
    requires Fits(x) && RecFits(r)
    ensures Fits(x.(recs := x.recs + [r]))
    ensures Overwrite(PrintIndex(x), |PrintIndex(x)|, RecText(r)) == PrintIndex(x.(recs := x.recs + [r]))
  {
    OverwriteEnd(Blocks(x), RecText(r));
    assert Blocks(x.(recs := x.recs + [r])) == Blocks(x) + [RecText(r)];
  }

  // ----- the data file -----

  function DataBlocks(datas: seq<string>): seq<string> {
    seq(|datas|, k requires 0 <= k < |datas| => datas[k] + [NEWLINE])
  }

  function PrintData(datas: seq<string>): string {
    Flatten(DataBlocks(datas))
  }

  function DataOff(datas: seq<string>, k: nat): nat
    requires k <= |datas|
  {
    if k == 0 then 0 else DataOff(datas, k - 1) + |datas[k - 1]| + 1
  }

  lemma {:induction false} DataStarts(datas: seq<string>, k: nat)
    requires k <= |datas|
    ensures Start(DataBlocks(datas), k) == DataOff(datas, k)
    decreases k
  {
    var b := DataBlocks(datas);
    if k == 0 {
      assert b[..0] == [];
    } else {
      DataStarts(datas, k - 1);
      assert b[..k][..k - 1] == b[..k - 1] && b[..k][k - 1] == datas[k - 1] + [NEWLINE];
    }
  }

  /** The extents tile the data file. */
  lemma DataTiles(datas: seq<string>)
    ensures |PrintData(datas)| == DataOff(datas, |datas|)
  {
    DataStarts(datas, |datas|);
    assert DataBlocks(datas)[..|datas|] == DataBlocks(datas);
  }

  lemma {:induction false} DataOffsStay(a: seq<string>, b: seq<string>, k: nat)
    requires k <= |a| && k <= |b| && forall j :: 0 <= j < k ==> |a[j]| == |b[j]|
    ensures DataOff(a, k) == DataOff(b, k)
  {
    if k > 0 { DataOffsStay(a, b, k - 1); }
  }

  lemma ReadData(datas: seq<string>, k: nat)
    requires k < |datas|
    ensures var at := DataOff(datas, k); var n := |datas[k]| + 1;
            at + n <= |PrintData(datas)| && PrintData(datas)[at..at + n] == datas[k] + [NEWLINE]
  {
    hide Flatten, Start;
    var b := DataBlocks(datas);
    assert b[k] == datas[k] + [NEWLINE];
    DataStarts(datas, k);
    BlockAt(b, k);
  }

  lemma WriteData(datas: seq<string>, k: nat, data: string)
    requires k < |datas| && |data| == |datas[k]|
    ensures DataOff(datas, k) <= |PrintData(datas)|
    ensures Overwrite(PrintData(datas), DataOff(datas, k), data + [NEWLINE]) == PrintData(datas[k := data])
  {
    var b := DataBlocks(datas);
    DataStarts(datas, k);
    OverwriteBlock(b, k, data + [NEWLINE]);
    assert b[k][|data + [NEWLINE]|..] == [];
    assert data + [NEWLINE] + [] == data + [NEWLINE];
    assert DataBlocks(datas[k := data]) == b[k := data + [NEWLINE]];
  }

  lemma AppendData(datas: seq<string>, data: string)
    ensures Overwrite(PrintData(datas), |PrintData(datas)|, data + [NEWLINE]) == PrintData(datas + [data])
    ensures DataOff(datas + [data], |datas|) == |PrintData(datas)|
  {
    OverwriteEnd(DataBlocks(datas), data + [NEWLINE]);
    assert DataBlocks(datas + [data]) == DataBlocks(datas) + [data + [NEWLINE]];
    DataTiles(datas);
    DataOffsStay(datas, datas + [data], |datas|);
  }
}
