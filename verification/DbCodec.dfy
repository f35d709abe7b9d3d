/** The text format of SimpleDB's index file: decimal fields padded on the left, and records that
    hold a chain pointer, their length, the key, and where the data is. */
module DbCodec {
  import opened Commands

  const PTR_SZ := 7
  const PTR_MAX := 999999
  const IDXLEN_SZ := 4
  const IDXLEN_MIN := 6
  const IDXLEN_MAX := 1024
  const DATLEN_MIN := 2
  const DATLEN_MAX := 1024
  const SEP := ':'
  const SPACE := ' '
  const NEWLINE := '\n'

  // ----- printing -----

  function Digit(d: nat): char
    requires d < 10
  {
    ('0' as int + d) as char
  }

  function Decimal(n: nat): string {
    if n < 10 then [Digit(n)] else Decimal(n / 10) + [Digit(n % 10)]
  }

  function Blanks(n: nat): string {
    seq(n, i => SPACE)
  }

  /** sprintf("%*d", width, n). */
  function Field(n: nat, width: nat): string {
    var d := Decimal(n);
    if |d| < width then Blanks(width - |d|) + d else d
  }

  /** The variable part of an index record, newline included. */
  function Text(key: string, datoff: nat, datlen: nat): string {
    key + [SEP] + Decimal(datoff) + [SEP] + Decimal(datlen) + [NEWLINE]
  }

  // ----- parsing -----

  predicate IsDigit(c: char) { '0' <= c <= '9' }

  predicate IsSpace(c: char) { c == ' ' || '\t' as int <= c as int <= '\r' as int }

  function SkipSpaces(s: string): string {
    if s != [] && IsSpace(s[0]) then SkipSpaces(s[1..]) else s
  }

  function DigitsFrom(s: string, acc: nat): nat
    decreases |s|
  {
    if s != [] && IsDigit(s[0]) then DigitsFrom(s[1..], 10 * acc + (s[0] as int - '0' as int)) else acc
  }

  /** atol: spaces, an optional sign, digits; whatever follows is ignored. */
  function Atol(s: string): int {
    var t := SkipSpaces(s);
    if t != [] && t[0] == '-' then -(DigitsFrom(t[1..], 0) as int)
    else if t != [] && t[0] == '+' then DigitsFrom(t[1..], 0)
    else DigitsFrom(t, 0)
  }

  /** strchr, as an index; |s| if there is none. */
  function Find(s: string, c: char): (n: nat)
    ensures n <= |s| && (n < |s| ==> s[n] == c) && c !in s[..n]
  {
    if s == [] || s[0] == c then 0
    else
      var n := Find(s[1..], c);
      assert s[..1 + n] == [s[0]] + s[1..][..n];
      1 + n
  }

  datatype Parsed = Parsed(ptrval: int, idxlen: nat, key: string, datoff: nat, datlen: nat)

  /** The record between a length field that said |buf| and the next record; None is err_dump. */
  function ParseText(ptrval: int, buf: string): Option<Parsed>
    requires |buf| > 0
  {
    var line := buf[..|buf| - 1];
    var i := Find(line, SEP);
    if buf[|buf| - 1] != NEWLINE || i == |line| then None
    else
      var rest := line[i + 1..];
      var j := Find(rest, SEP);
      if j == |rest| || SEP in rest[j + 1..] then None
      else
        var datoff, datlen := Atol(rest[..j]), Atol(rest[j + 1..]);
        if datoff < 0 || datlen <= 0 || datlen > DATLEN_MAX then None
        else Some(Parsed(ptrval, |buf|, line[..i], datoff, datlen))
  }

  /** _db_readidx at an offset where there is something to read. */
  function ParseAt(file: string, offset: nat): Option<Parsed> {
    if offset + PTR_SZ + IDXLEN_SZ > |file| then None
    else
      var ptrval := Atol(file[offset..offset + PTR_SZ]);
      var start := offset + PTR_SZ + IDXLEN_SZ;
      var idxlen := Atol(file[offset + PTR_SZ..start]);
      if idxlen < IDXLEN_MIN || idxlen > IDXLEN_MAX || start + idxlen > |file| then None
      else ParseText(ptrval, file[start..start + idxlen])
  }

  // ----- parsing what was printed -----

  ghost predicate AllDigits(s: string) {
    forall i :: 0 <= i < |s| ==> IsDigit(s[i])
  }

  lemma {:induction false} DecimalIsDigits(n: nat)
    ensures |Decimal(n)| > 0 && AllDigits(Decimal(n))
  {
    if n >= 10 { DecimalIsDigits(n / 10); }
  }

  lemma {:induction false} DigitsAppend(s: string, c: char, acc: nat)
    requires AllDigits(s) && IsDigit(c)
    ensures DigitsFrom(s + [c], acc) == 10 * DigitsFrom(s, acc) + (c as int - '0' as int)
    decreases |s|
  {
    if s == [] {
      assert ([] + [c])[1..] == [];
    } else {
      assert (s + [c])[1..] == s[1..] + [c];
      DigitsAppend(s[1..], c, 10 * acc + (s[0] as int - '0' as int));
    }
  }

  lemma {:induction false} DecimalReadsBack(n: nat)
    ensures DigitsFrom(Decimal(n), 0) == n
  {
    if n < 10 {
      assert Decimal(n)[1..] == [];
    } else {
      DecimalReadsBack(n / 10);
      DecimalIsDigits(n / 10);
      DigitsAppend(Decimal(n / 10), Digit(n % 10), 0);
    }
  }

  lemma {:induction false} SkipsBlanks(k: nat, s: string)
    requires s != [] && IsDigit(s[0])
    ensures SkipSpaces(Blanks(k) + s) == s
  {
    if k == 0 {
      assert Blanks(0) + s == s;
    } else {
      assert (Blanks(k) + s)[1..] == Blanks(k - 1) + s;
      SkipsBlanks(k - 1, s);
    }
  }

  /** A number printed at any width is read back. */
  lemma FieldReadsBack(n: nat, width: nat)
    ensures Atol(Field(n, width)) == n
  {
    var d := Decimal(n);
    DecimalIsDigits(n);
    DecimalReadsBack(n);
    var k := if |d| < width then width - |d| else 0;
    assert Field(n, width) == Blanks(k) + d;
    SkipsBlanks(k, d);
  }

  lemma {:induction false} DecimalFits(n: nat, digits: nat)
    requires digits > 0 && n < Pow10(digits)
    ensures |Decimal(n)| <= digits
    decreases digits
  {
    if n >= 10 {
      assert Pow10(digits) == 10 * Pow10(digits - 1) && Pow10(0) == 1;
      DecimalFits(n / 10, digits - 1);
    }
  }

  function Pow10(k: nat): nat {
    if k == 0 then 1 else 10 * Pow10(k - 1)
  }

  /** Every offset up to PTR_MAX fills its field and leaves a blank in front; every legal length
      fills its own. */
  lemma FieldWidths(ptr: nat, len: nat)
    requires ptr <= PTR_MAX && len <= IDXLEN_MAX
    ensures |Field(ptr, PTR_SZ)| == PTR_SZ && |Field(len, IDXLEN_SZ)| == IDXLEN_SZ
  {
    assert Pow10(2) == 100 && Pow10(4) == 100 * Pow10(2) && Pow10(6) == 100 * Pow10(4);
    DecimalFits(ptr, 6);
    DecimalFits(len, 4);
    DecimalIsDigits(ptr);
    DecimalIsDigits(len);
  }

  /** The pointers of an empty index file. */
  lemma ZeroPointer()
    ensures Field(0, PTR_SZ) == "      0"
  {
  }

  /** Digits of which the first is 0 only in 0 itself. */
  ghost predicate Canonical(d: string) {
    |d| > 0 && AllDigits(d) && (d[0] == '0' ==> |d| == 1)
  }

  lemma {:induction false} DecimalCanonical(n: nat)
    ensures Canonical(Decimal(n)) && (Decimal(n)[0] == '0' <==> n == 0)
  {
    if n >= 10 { DecimalCanonical(n / 10); }
  }

  /** A field is blanks up to the width, if any are needed, and then the digits of the number. */
  lemma FieldIsPadded(n: nat, width: nat) returns (blanks: nat)
    ensures var f := Field(n, width);
            blanks < |f| && (forall i :: 0 <= i < blanks ==> f[i] == ' ') && Canonical(f[blanks..])
            && DigitsFrom(f[blanks..], 0) == n && (if blanks > 0 then |f| == width else |f| >= width)
  {
    var d := Decimal(n);
    DecimalCanonical(n);
    DecimalReadsBack(n);
    blanks := if |d| < width then width - |d| else 0;
    assert Field(n, width)[blanks..] == d;
  }

  lemma FindFirst(a: string, c: char, b: string)
    requires c !in a
    ensures Find(a + [c] + b, c) == |a|
  {
    var s := a + [c] + b;
    var n := Find(s, c);
    assert s[|a|] == c;
    assert forall i :: 0 <= i < |a| ==> s[i] == a[i];
    assert forall i :: 0 <= i < n ==> s[..n][i] == s[i];
  }

  lemma NoSeparator(n: nat)
    ensures SEP !in Decimal(n)
  {
    DecimalIsDigits(n);
  }

  lemma DecimalAtol(n: nat)
    ensures Atol(Decimal(n)) == n
  {
    FieldReadsBack(n, 0);
  }

  /** Where the separators of a printed record are. */
  lemma TextSplits(key: string, a: string, b: string)
    requires SEP !in key && SEP !in a && SEP !in b
    ensures var line := key + [SEP] + a + [SEP] + b;
            Find(line, SEP) == |key| && line[..|key|] == key && line[|key| + 1..] == a + [SEP] + b
    ensures var rest := a + [SEP] + b;
            Find(rest, SEP) == |a| && rest[..|a|] == a && rest[|a| + 1..] == b
  {
    var rest := a + [SEP] + b;
    assert key + [SEP] + a + [SEP] + b == key + [SEP] + rest;
    FindFirst(key, SEP, rest);
    FindFirst(a, SEP, b);
  }

  lemma TextReadsBack(ptrval: int, key: string, datoff: nat, datlen: nat)
    requires SEP !in key && 0 < datlen <= DATLEN_MAX
    ensures ParseText(ptrval, Text(key, datoff, datlen))
            == Some(Parsed(ptrval, |Text(key, datoff, datlen)|, key, datoff, datlen))
  {
    hide Atol, Decimal, Find;
    var buf, a, b := Text(key, datoff, datlen), Decimal(datoff), Decimal(datlen);
    assert buf[..|buf| - 1] == key + [SEP] + a + [SEP] + b;
    NoSeparator(datoff);
    NoSeparator(datlen);
    TextSplits(key, a, b);
    DecimalAtol(datoff);
    DecimalAtol(datlen);
  }

  ghost predicate Splits(buf: string, key: string, a: string, b: string) {
    buf == key + ":" + a + ":" + b + "\n" && ':' !in key && ':' !in a && ':' !in b
  }

  /** What parses is a key, a number that is not negative and one from 1 to 1024, each with a separator
      before the next and a newline at the end. */
  lemma ParseMeans(ptrval: int, buf: string)
    requires |buf| > 0
    ensures ParseText(ptrval, buf).Some? ==> exists key, a, b :: Splits(buf, key, a, b)
    ensures forall key, a, b :: Splits(buf, key, a, b) ==>
              ParseText(ptrval, buf)
              == if Atol(a) >= 0 && 1 <= Atol(b) <= 1024 then Some(Parsed(ptrval, |buf|, key, Atol(a), Atol(b))) else None
  {
    hide Atol, Find, ParseText, Splits;
    forall key, a, b | Splits(buf, key, a, b)
      ensures ParseText(ptrval, buf)
              == if Atol(a) >= 0 && 1 <= Atol(b) <= 1024 then Some(Parsed(ptrval, |buf|, key, Atol(a), Atol(b))) else None
    {
      ParsesParts(ptrval, buf, key, a, b);
    }
    if ParseText(ptrval, buf).Some? { var _, _, _ := ParsedParts(ptrval, buf); }
  }

  lemma ParsesParts(ptrval: int, buf: string, key: string, a: string, b: string)
    requires |buf| > 0 && Splits(buf, key, a, b)
    ensures ParseText(ptrval, buf)
            == if Atol(a) >= 0 && 1 <= Atol(b) <= 1024 then Some(Parsed(ptrval, |buf|, key, Atol(a), Atol(b))) else None
  {
    hide Atol, Find;
    assert buf[..|buf| - 1] == key + [SEP] + a + [SEP] + b;
    TextSplits(key, a, b);
  }

  lemma ParsedParts(ptrval: int, buf: string) returns (key: string, a: string, b: string)
    requires |buf| > 0 && ParseText(ptrval, buf).Some?
    ensures Splits(buf, key, a, b)
  {
    hide Atol, Find;
    var line := buf[..|buf| - 1];
    var i := Find(line, SEP);
    var rest := line[i + 1..];
    var j := Find(rest, SEP);
    key, a, b := line[..i], rest[..j], rest[j + 1..];
    assert line == key + ":" + rest && rest == a + ":" + b;
  }

  lemma FindNotAfter(s: string, c: char, at: nat)
    requires at < |s| && s[at] == c
    ensures Find(s, c) <= at
  {
    assert forall i :: 0 <= i < Find(s, c) ==> s[..Find(s, c)][i] == s[i];
  }

  /** A record can be read back exactly when its key has no separator in it. */
  lemma ReadableIffNoSeparator(ptrval: int, key: string, datoff: nat, datlen: nat)
    requires 0 < datlen <= DATLEN_MAX
    ensures ParseText(ptrval, Text(key, datoff, datlen)).Some? <==> SEP !in key
  {
    if SEP !in key {
      TextReadsBack(ptrval, key, datoff, datlen);
    } else {
      hide Decimal, Atol, Find;
      var buf, a, b := Text(key, datoff, datlen), Decimal(datoff), Decimal(datlen);
      var line := key + [SEP] + a + [SEP] + b;
      assert buf[..|buf| - 1] == line;
      var k :| 0 <= k < |key| && key[k] == SEP;
      FindNotAfter(line, SEP, k);
      var i := Find(line, SEP);
      var rest := line[i + 1..];
      FindNotAfter(rest, SEP, |key| - i - 1);
      var j := Find(rest, SEP);
      assert rest[j + 1..][|key| + 1 + |a| - i - j - 2] == SEP;
    }
  }

  /** An index record as it lies in the file. */
  function Entry(next: nat, key: string, datoff: nat, datlen: nat): string {
    var text := Text(key, datoff, datlen);
    Field(next, PTR_SZ) + Field(|text|, IDXLEN_SZ) + text
  }

  /** The first record of a file, with no other on its chain. */
  lemma FirstEntry()
    ensures Entry(0, "a", 0, 2) == "      0   6a:0:2\n"
  {
    assert Text("a", 0, 2) == "a:0:2\n";
    assert Field(6, IDXLEN_SZ) == "   6";
    ZeroPointer();
  }

  predicate EntryFits(next: nat, key: string, datoff: nat, datlen: nat) {
    next <= PTR_MAX && 0 < datlen <= DATLEN_MAX && IDXLEN_MIN <= |Text(key, datoff, datlen)| <= IDXLEN_MAX
  }

  lemma ThreeParts(file: string, at: nat, a: string, b: string, c: string)
    requires at + |a + b + c| <= |file| && file[at..at + |a + b + c|] == a + b + c
    ensures file[at..at + |a|] == a && file[at + |a|..at + |a| + |b|] == b
    ensures file[at + |a| + |b|..at + |a| + |b| + |c|] == c
  {
    var e := a + b + c;
    SliceOfSlice(file, at, |e|, 0, |a|);
    SliceOfSlice(file, at, |e|, |a|, |a| + |b|);
    SliceOfSlice(file, at, |e|, |a| + |b|, |e|);
    assert e[0..|a|] == a && e[|a|..|a| + |b|] == b && e[|a| + |b|..|e|] == c;
  }

  lemma SliceOfSlice(s: string, at: nat, n: nat, i: nat, j: nat)
    requires at + n <= |s| && i <= j <= n
    ensures s[at..at + n][i..j] == s[at + i..at + j]
  {
    var a, b := s[at..at + n][i..j], s[at + i..at + j];
    forall k | 0 <= k < |a| ensures a[k] == b[k] {
    }
  }

  /** Whatever its key, a record is read as its text. */
  lemma EntryParses(file: string, offset: nat, next: nat, key: string, datoff: nat, datlen: nat)
    requires EntryFits(next, key, datoff, datlen)
    requires var e := Entry(next, key, datoff, datlen); offset + |e| <= |file| && file[offset..offset + |e|] == e
    ensures |Entry(next, key, datoff, datlen)| == PTR_SZ + IDXLEN_SZ + |Text(key, datoff, datlen)|
    ensures file[offset..offset + PTR_SZ] == Field(next, PTR_SZ)
    ensures ParseAt(file, offset) == ParseText(next, Text(key, datoff, datlen))
  {
    var text, e := Text(key, datoff, datlen), Entry(next, key, datoff, datlen);
    hide Field, Atol, Text, ParseText;
    FieldWidths(next, |text|);
    FieldReadsBack(next, PTR_SZ);
    FieldReadsBack(|text|, IDXLEN_SZ);
    ThreeParts(file, offset, Field(next, PTR_SZ), Field(|text|, IDXLEN_SZ), text);
  }

  /** A record read from where it was written is the record, if its key has no separator in it; else it
      does not parse. */
  lemma EntryReadsBack(file: string, offset: nat, next: nat, key: string, datoff: nat, datlen: nat)
    requires EntryFits(next, key, datoff, datlen)
    requires var e := Entry(next, key, datoff, datlen); offset + |e| <= |file| && file[offset..offset + |e|] == e
    ensures |Entry(next, key, datoff, datlen)| == PTR_SZ + IDXLEN_SZ + |Text(key, datoff, datlen)|
    ensures file[offset..offset + PTR_SZ] == Field(next, PTR_SZ)
    ensures ParseAt(file, offset)
            == if SEP in key then None else Some(Parsed(next, |Text(key, datoff, datlen)|, key, datoff, datlen))
  {
    hide Field, Text, ParseText, ParseAt, Entry;
    EntryParses(file, offset, next, key, datoff, datlen);
    ReadableIffNoSeparator(next, key, datoff, datlen);
    if SEP !in key { TextReadsBack(next, key, datoff, datlen); }
  }

  // ----- the hash -----

  const NHASH := 137
  const WORD := 0x1_0000_0000_0000_0000

  function SignedChar(c: char): int {
    var b := c as int % 256;
    if b >= 128 then b - 256 else b
  }

  /** The hashing loop: both the index and the pointer advance, so every other character counts. */
  function HashFrom(key: string, i: nat, acc: nat): nat
    requires i >= 1
    decreases |key| - i
  {
    if i <= |key| - (i - 1) then HashFrom(key, i + 1, (acc + SignedChar(key[2 * (i - 1)]) * i) % WORD) else acc
  }

  function Hash(key: string): (h: nat)
    ensures h < NHASH
  {
    HashFrom(key, 1, 0) % NHASH
  }

  /** Keys that agree on every other character hash alike. */
  lemma HashIgnoresOddCharacters(a: string, b: string)
    requires (|a| + 1) / 2 == (|b| + 1) / 2
    requires forall i :: 0 <= i < |a| && i < |b| && i % 2 == 0 ==> a[i] == b[i]
    ensures Hash(a) == Hash(b)
  {
    HashTailsAgree(a, b, 1, 0);
  }

  lemma {:induction false} HashTailsAgree(a: string, b: string, i: nat, acc: nat)
    requires (|a| + 1) / 2 == (|b| + 1) / 2 && i >= 1
    requires forall k :: 0 <= k < |a| && k < |b| && k % 2 == 0 ==> a[k] == b[k]
    ensures HashFrom(a, i, acc) == HashFrom(b, i, acc)
    decreases |a| + 1 - i
  {
    if i <= |a| - (i - 1) {
      assert (2 * (i - 1)) % 2 == 0;
      HashTailsAgree(a, b, i + 1, (acc + SignedChar(a[2 * (i - 1)]) * i) % WORD);
    }
  }

  /** What the hashing loop adds up: the characters at the even positions, each times its number from 1. */
  function Sum(key: string, n: nat): int
    requires 2 * n <= |key| + 1
  {
    if n == 0 then 0 else Sum(key, n - 1) + SignedChar(key[2 * (n - 1)]) * n
  }

  lemma AddsWrapped(a: int, b: int)
    ensures (a % 0x1_0000_0000_0000_0000 + b) % 0x1_0000_0000_0000_0000 == (a + b) % 0x1_0000_0000_0000_0000
  {
  }

  lemma SumNext(key: string, i: nat, acc: nat)
    requires i >= 1 && i <= |key| - (i - 1) && acc == Sum(key, i - 1) % WORD
    ensures (acc + SignedChar(key[2 * (i - 1)]) * i) % WORD == Sum(key, i) % WORD
  {
    AddsWrapped(Sum(key, i - 1), SignedChar(key[2 * (i - 1)]) * i);
  }

  lemma {:induction false} HashSums(key: string, i: nat, acc: nat)
    requires i >= 1 && 2 * (i - 1) <= |key| + 1 && acc == Sum(key, i - 1) % WORD
    ensures HashFrom(key, i, acc) == Sum(key, (|key| + 1) / 2) % WORD
    decreases |key| + 1 - i
  {
    hide SignedChar, Sum;
    if i <= |key| - (i - 1) {
      SumNext(key, i, acc);
      HashSums(key, i + 1, (acc + SignedChar(key[2 * (i - 1)]) * i) % WORD);
    } else {
      assert i - 1 == (|key| + 1) / 2;
    }
  }

  /** The hash is that sum on 64 bits, modulo 137. */
  lemma HashIsSum(key: string)
    ensures Hash(key) == (Sum(key, (|key| + 1) / 2) % 0x1_0000_0000_0000_0000) % 137
  {
    HashSums(key, 1, 0);
  }
}
