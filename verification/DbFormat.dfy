/**
 The byte formats of the two database files: fixed-width pointer fields, and index records of
 the form  ptr(7) len(4) key ':' datoff ':' datlen '\n'.
 */
module DbFormat {
  import opened Options
  import opened CText

  const SEP: Byte := 58
  const PTR_SZ: nat := 7
  const IDXLEN_SZ: nat := 4
  const PTR_MAX: nat := 9999999
  const NHASH: nat := 137

  /** Chain pointers in the index file: the free list and then the hash table. */
  const NLIST: nat := 138

  /** Where the newline after the hash table stands; records start just behind it. */
  const TABLE_END: nat := 966
  const FIRST_REC: nat := 967

  // The header that fixes these limits is not part of this model; the values are the customary ones.
  const IDXLEN_MIN: nat := 6
  const IDXLEN_MAX: nat := 1024
  /** The longest index record there is. */
  const REC_MAX: nat := 1035
  const DATLEN_MIN: nat := 2
  const DATLEN_MAX: nat := 1024

  datatype Rec = Rec(ptr: nat, key: CString, datoff: nat, datlen: nat)

  /** What reading an index record yields; Dump is a corruption abort. */
  datatype ReadResult = Eof | Read(rec: Rec) | Dump

  /** The loop of _db_hash: signed characters times their 1-based index, summed in a 64-bit unsigned word. */
  function HashFrom(rest: seq<Byte>, i: nat, hval: nat): nat
    decreases |rest|
  {
    if rest == [] then hval
    else
      HashFrom(rest[1..], i + 1, (hval + Signed(rest[0]) * i) % WORD)
  }

  /** One more than the largest DBHASH. */
  const WORD: nat := 0x1_0000_0000_0000_0000

  /** A byte as a signed character. */
  function Signed(c: Byte): int { if c < 128 then c else c - 256 }

  /** Every character times its place in the key, counted from 1. */
  function Weighted(key: seq<Byte>): int {
    if key == [] then 0 else Weighted(key[..|key| - 1]) + Signed(key[|key| - 1]) * |key|
  }

  lemma {:induction false} HashFromOneMore(rest: seq<Byte>, c: Byte, i: nat, hval: nat)
    ensures HashFrom(rest + [c], i, hval) == (HashFrom(rest, i, hval) + Signed(c) * (i + |rest|)) % WORD
    decreases |rest|
  {
    if rest == [] {
      assert ([] + [c])[1..] == [];
    } else {
      assert (rest + [c])[1..] == rest[1..] + [c];
      HashFromOneMore(rest[1..], c, i + 1, (hval + Signed(rest[0]) * i) % WORD);
    }
  }

  lemma {:induction false} HashFromIsSum(key: seq<Byte>)
    ensures HashFrom(key, 1, 0) == Weighted(key) % WORD
  {
    if key != [] {
      var n := |key| - 1;
      var init, add := key[..n], Signed(key[n]) * |key|;
      HashFromIsSum(init);
      assert key == init + [key[n]];
      HashFromOneMore(init, key[n], 1, 0);
      assert HashFrom(key, 1, 0) == (HashFrom(init, 1, 0) + add) % WORD;
      assert Weighted(key) == Weighted(init) + add;
      hide HashFrom, Weighted, Signed;
      AddModulo(Weighted(init), add);
    }
  }

  lemma AddModulo(a: int, b: int)
    ensures (a % WORD + b) % WORD == (a + b) % WORD
  {
    assert a == WORD * (a / WORD) + a % WORD;
    var c := a % WORD + b;
    assert c == WORD * (c / WORD) + c % WORD;
  }

  type Hasher = CString -> nat

  /** A hash function into the table. Everything about the database holds for each one of these. */
  ghost predicate InTable(hash: Hasher) {
    forall key {:trigger hash(key)} :: hash(key) < NHASH
  }

  /** The hash function of the library. */
  function Hash(key: CString): (h: nat)
    ensures h < NHASH
  {
    HashFrom(key, 1, 0) % NHASH
  }

  /** The hash value is that sum, in a word of 64 bits, modulo the size of the table. */
  lemma HashIsWeighted(key: CString)
    ensures Hash(key) == Weighted(key) % WORD % NHASH
  {
    HashFromIsSum(key);
  }

  /** Everything behind the two leading fields of an index record. */
  function Body(key: CString, datoff: nat, datlen: nat): (s: CString)
    ensures |s| == |key| + DigitCount(datoff) + DigitCount(datlen) + 3
  {
    key + [SEP] + Decimal(datoff) + [SEP] + Decimal(datlen) + [NEWLINE]
  }

  function BodyLen(r: Rec): nat { |r.key| + DigitCount(r.datoff) + DigitCount(r.datlen) + 3 }

  /** Size of a record in the index file. */
  function RecSize(r: Rec): nat { PTR_SZ + IDXLEN_SZ + BodyLen(r) }

  /** The limits under which the writers of an index record do not abort. */
  predicate Writable(r: Rec) {
    r.ptr <= PTR_MAX && IDXLEN_MIN <= BodyLen(r) <= IDXLEN_MAX
  }

  /** The bytes of a chain pointer field. */
  function PtrField(v: nat): (s: CString)
    requires v <= PTR_MAX
    ensures |s| == PTR_SZ && Atol(s) == v
  {
    assert Pow10(7) == 10 * Pow10(6) == 100 * Pow10(5) == 1000 * Pow10(4) == 10000 * Pow10(3) == 100000 * Pow10(2);
    assert Pow10(2) == 10 * Pow10(1) == 100;
    FieldWidth(v, PTR_SZ);
    FieldRoundTrip(v, PTR_SZ);
    Field(v, PTR_SZ)
  }

  /** The bytes of a record length field. */
  function LenField(len: nat): (s: CString)
    requires len <= IDXLEN_MAX
    ensures |s| == IDXLEN_SZ && Atol(s) == len
  {
    assert Pow10(4) == 10 * Pow10(3) == 100 * Pow10(2);
    assert Pow10(2) == 10 * Pow10(1) == 100;
    FieldWidth(len, IDXLEN_SZ);
    FieldRoundTrip(len, IDXLEN_SZ);
    Field(len, IDXLEN_SZ)
  }

  function EncodeRec(r: Rec): (s: CString)
    requires Writable(r)
    ensures |s| == RecSize(r)
  {
    PtrField(r.ptr) + (LenField(BodyLen(r)) + Body(r.key, r.datoff, r.datlen))
  }

  /** A first record, for the key Alpha with five bytes of data:  `      0  10Alpha:0:6`  and a newline. */
  lemma FirstRecordBytes()
    ensures var alpha := [65, 108, 112, 104, 97];
            && Writable(Rec(0, alpha, 0, 6))
            && EncodeRec(Rec(0, alpha, 0, 6))
               == [32, 32, 32, 32, 32, 32, 48] + [32, 32, 49, 48] + alpha + [58, 48, 58, 54, 10]
  {
    assert Decimal(0) == [48] && Decimal(6) == [54] && Decimal(10) == [49, 48];
    assert DigitCount(0) == 1 && DigitCount(6) == 1;
  }

  /** The limits the readers check as well. */
  predicate InLimits(r: Rec) {
    Writable(r) && 0 < r.datlen <= DATLEN_MAX
  }

  /** What the reader makes of a record: with a separator in its key, an abort. */
  function ReadBack(r: Rec): ReadResult {
    if SEP in r.key then Dump else Read(r)
  }

  /** Key, offset and length text of an index record: cut at the first two separators, refuse a third. */
  function Fields(text: seq<Byte>): (r: Option<(seq<Byte>, seq<Byte>, seq<Byte>)>)
    ensures r.Some? && 0 !in text ==> 0 !in r.value.0
  {
    var i := Find(text, SEP);
    if i == |text| then None
    else
      var rest := text[i + 1..];
      var j := Find(rest, SEP);
      if j == |rest| || SEP in rest[j + 1..] then None
      else Some((text[..i], rest[..j], rest[j + 1..]))
  }

  /** What readidx makes of the bytes between the two leading fields and the final newline. */
  function ParseBody(ptr: int, line: seq<Byte>): ReadResult {
    match Fields(line[..Find(line, 0)])           // C string functions stop at a null
    case None => Dump
    case Some((key, off, len)) =>
      if ptr < 0 || Atol(off) < 0 || Atol(len) <= 0 || Atol(len) > DATLEN_MAX then Dump
      else Read(Rec(ptr, key, Atol(off), Atol(len)))
  }

  /** Chain pointer and line of the record at `off`, as its two leading fields delimit it. */
  function Frame(file: seq<Byte>, off: nat): Option<(int, seq<Byte>)> {
    var start := off + PTR_SZ + IDXLEN_SZ;
    if start > |file| then None
    else
      var len := Atol(file[off + PTR_SZ..start]);
      if len < IDXLEN_MIN || len > IDXLEN_MAX || start + len > |file| then None
      else if file[start + len - 1] != NEWLINE then None
      else Some((Atol(file[off..off + PTR_SZ]), file[start..start + len - 1]))
  }

  /** Read the index record at `off`; at the end of the file only a sequential read gets Eof. */
  function ParseRec(file: seq<Byte>, off: nat, sequential: bool): ReadResult {
    if off == |file| && sequential then Eof
    else
      match Frame(file, off)
      case None => Dump
      case Some((ptr, line)) => ParseBody(ptr, line)
  }

  lemma KeyInFront(line: seq<Byte>)
    ensures var key := Fields(line[..Find(line, 0)]);
            key.Some? ==> key.value.0 <= line && SEP !in key.value.0
  {
    var text := line[..Find(line, 0)];
    assert text[..Find(text, SEP)] <= text <= line;
  }

  /** What the reader accepts, whatever the bytes: a length in its limits, all of the record in the file, a newline at
      its end, a key without a separator and a data length in its limits. The end of the file it reports only to a
      sequential read that stands there. */
  lemma ReaderAccepts(file: seq<Byte>, off: nat, sequential: bool)
    ensures ParseRec(file, off, sequential) == Eof <==> off == |file| && sequential
    ensures ParseRec(file, off, sequential).Read? ==>
              && off + PTR_SZ + IDXLEN_SZ <= |file|
              && var (r, start) := (ParseRec(file, off, sequential).rec, off + PTR_SZ + IDXLEN_SZ);
                 var len := Atol(file[off + PTR_SZ..start]);
                 && IDXLEN_MIN <= len <= IDXLEN_MAX && start + len <= |file| && file[start + len - 1] == NEWLINE
                 && r.ptr == Atol(file[off..off + PTR_SZ]) && r.key <= file[start..start + len - 1] && SEP !in r.key
                 && 0 < r.datlen <= DATLEN_MAX
  {
    if ParseRec(file, off, sequential).Read? {
      var (ptr, line) := Frame(file, off).value;
      KeyInFront(line);
      hide Atol, Find, Fields;
    }
  }

  /** The bytes of a body that the reader sees: all but the newline. */
  function Line(r: Rec): (s: CString)
    ensures s == r.key + ([SEP] + (Decimal(r.datoff) + ([SEP] + Decimal(r.datlen))))
    ensures |s| == BodyLen(r) - 1 && s == Body(r.key, r.datoff, r.datlen)[..BodyLen(r) - 1]
  {
    Body(r.key, r.datoff, r.datlen)[..BodyLen(r) - 1]
  }

  /** Cutting at the first `c` separates a `c`-free prefix from the rest. */
  lemma FindCuts(pre: seq<Byte>, c: Byte, post: seq<Byte>)
    ensures var s := pre + ([c] + post); var i := Find(s, c);
            && (c !in pre ==> i == |pre| && s[..i] == pre && s[i + 1..] == post)
            && (c in pre ==> i < |pre| && s[i + 1..] == pre[i + 1..] + ([c] + post))
  {
    var s := pre + ([c] + post);
    assert s[|pre|] == c;
    if c in pre {
      var k :| 0 <= k < |pre| && pre[k] == c;
      assert s[k] == c;
    }
  }

  lemma NoNullIn(s: CString)
    ensures s[..Find(s, 0)] == s
  {
  }

  lemma CutStillIn(pre: seq<Byte>, c: Byte, post: seq<Byte>)
    requires c in post
    ensures var s := pre + ([c] + post); var i := Find(s, c); i < |s| && c in s[i + 1..]
  {
    FindCuts(pre, c, post);
    if c in pre {
      var rest := pre[Find(pre + ([c] + post), c) + 1..];
      assert (rest + ([c] + post))[|rest|] == c;
    }
  }

  /** A text with a separator in its first part has a third one, which the reader refuses. */
  lemma ThirdCut(key: seq<Byte>, end: seq<Byte>)
    requires SEP in key && SEP in end
    ensures Fields(key + ([SEP] + end)) == None
  {
    FindCuts(key, SEP, end);
    CutStillIn(key[Find(key + ([SEP] + end), SEP) + 1..], SEP, end);
  }

  lemma FieldsSplit(key: seq<Byte>, a: seq<Byte>, b: seq<Byte>)
    requires SEP !in a && SEP !in b
    ensures Fields(key + ([SEP] + (a + ([SEP] + b)))) == if SEP in key then None else Some((key, a, b))
  {
    var end := a + ([SEP] + b);
    FindCuts(key, SEP, end);
    if SEP in key {
      assert end[|a|] == SEP;
      ThirdCut(key, end);
    } else {
      FindCuts(a, SEP, b);
    }
  }

  /** The body of a record reads back exactly when its key has no separator in it. */
  lemma BodyRoundTrip(r: Rec)
    requires 0 < r.datlen <= DATLEN_MAX
    ensures (ParseBody(r.ptr, Line(r)) == Read(r)) <==> SEP !in r.key
    ensures SEP in r.key ==> ParseBody(r.ptr, Line(r)) == Dump
  {
    NoNullIn(Line(r));
    FieldsSplit(r.key, Decimal(r.datoff), Decimal(r.datlen));
    FieldRoundTrip(r.datoff, 1);
    FieldRoundTrip(r.datlen, 1);
  }

  /** `bytes` stand at offset `o` of the file. */
  predicate Holds(file: seq<Byte>, o: nat, bytes: seq<Byte>) {
    o + |bytes| <= |file| && file[o..o + |bytes|] == bytes
  }

  lemma HoldsParts(file: seq<Byte>, o: nat, a: seq<Byte>, b: seq<Byte>)
    ensures Holds(file, o, a + b) <==> Holds(file, o, a) && Holds(file, o + |a|, b)
  {
    if o + |a| + |b| <= |file| {
      var m := file[o..o + |a| + |b|];
      assert file[o..o + |a|] == m[..|a|] && file[o + |a|..o + |a| + |b|] == m[|a|..];
      assert m == m[..|a|] + m[|a|..];
      assert (a + b)[..|a|] == a && (a + b)[|a|..] == b;
    }
  }

  lemma FrameOf(file: seq<Byte>, off: nat, r: Rec)
    requires Writable(r) && Holds(file, off, EncodeRec(r))
    ensures Frame(file, off) == Some((r.ptr, Line(r)))
  {
    var b := Body(r.key, r.datoff, r.datlen);
    var start := off + PTR_SZ + IDXLEN_SZ;
    HoldsParts(file, off, PtrField(r.ptr), LenField(BodyLen(r)) + b);
    HoldsParts(file, off + PTR_SZ, LenField(BodyLen(r)), b);
    assert b == Line(r) + [NEWLINE];
    HoldsParts(file, start, Line(r), [NEWLINE]);
    assert file[start + |b| - 1] == file[start + |b| - 1..start + |b|][0];
  }

  /** A record written anywhere in a file is read back from there, field for field; with a separator in its
      key it can be written too, but every later read of it aborts. */
  lemma RecRoundTrip(file: seq<Byte>, off: nat, r: Rec, sequential: bool)
    requires InLimits(r) && Holds(file, off, EncodeRec(r))
    ensures ParseRec(file, off, sequential) == Read(r) <==> SEP !in r.key
    ensures SEP in r.key ==> ParseRec(file, off, sequential) == Dump
  {
    FrameOf(file, off, r);
    BodyRoundTrip(r);
  }

  /** Overwrite part of a file. */
  function Splice(file: seq<Byte>, off: nat, bytes: seq<Byte>): (r: seq<Byte>)
    requires off + |bytes| <= |file|
    ensures |r| == |file|
  {
    file[..off] + bytes + file[off + |bytes|..]
  }

  lemma SpliceHolds(file: seq<Byte>, off: nat, bytes: seq<Byte>)
    requires off + |bytes| <= |file|
    ensures Holds(Splice(file, off, bytes), off, bytes)
    ensures forall i :: 0 <= i < |file| && !(off <= i < off + |bytes|) ==> Splice(file, off, bytes)[i] == file[i]
  {
  }

  /** A splice elsewhere, or an extension, leaves what stands in the file. */
  lemma HoldsFrame(file: seq<Byte>, off: nat, bytes: seq<Byte>, o: nat, kept: seq<Byte>)
    requires off + |bytes| <= |file| && Holds(file, o, kept)
    requires o + |kept| <= off || off + |bytes| <= o
    ensures Holds(Splice(file, off, bytes), o, kept)
  {
    var f := Splice(file, off, bytes);
    assert f[o..o + |kept|] == file[o..o + |kept|];
  }

  lemma HoldsExtended(file: seq<Byte>, bytes: seq<Byte>, o: nat, kept: seq<Byte>)
    requires Holds(file, o, kept)
    ensures Holds(file + bytes, o, kept)
    ensures Holds(file + bytes, |file|, bytes)
  {
    assert (file + bytes)[o..o + |kept|] == file[o..o + |kept|];
  }

  /** Any pointer up to PTR_MAX survives being stored in its 7-byte field, and no other byte changes. */
  lemma PtrRoundTrip(file: seq<Byte>, off: nat, v: nat)
    requires v <= PTR_MAX && off + PTR_SZ <= |file|
    ensures var f := Splice(file, off, PtrField(v));
            && |f| == |file| && Atol(f[off..off + PTR_SZ]) == v
            && forall i :: 0 <= i < |f| && !(off <= i < off + PTR_SZ) ==> f[i] == file[i]
  {
    SpliceHolds(file, off, PtrField(v));
  }
}
