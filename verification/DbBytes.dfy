/** The bytes of the index and data files, and how they stand for the linked records of DbFiles. */
module DbBytes {
  import opened CText
  import opened DbFormat
  import opened DbFiles
  import opened DbEffects

  /** A write at offset `off` of a file: overwrites, and extends the file when it reaches past its end. */
  function PWrite(file: seq<Byte>, off: nat, bytes: seq<Byte>): seq<Byte>
    requires off <= |file|
  {
    if off + |bytes| <= |file| then Splice(file, off, bytes) else file[..off] + bytes
  }

  function End(f: Files, o: nat): nat
    requires o in f.recs
  {
    o + RecSize(f.recs[o])
  }

  /** Behind the record at `o` stands another record, or the end of the file. */
  ghost predicate Continues(f: Files, o: nat)
    requires o in f.recs
  {
    End(f, o) in f.recs || End(f, o) == f.idxEnd
  }

  /** Whole records, one behind the other, from FIRST_REC to the end of the file. */
  ghost predicate Tiled(f: Files) {
    && (FIRST_REC == f.idxEnd || FIRST_REC in f.recs)
    && (forall o {:trigger Continues(f, o)} :: o in f.recs ==> Continues(f, o))
    && (forall o :: o in f.recs ==> FIRST_REC <= o)
    && (forall o, p {:trigger End(f, o), End(f, p)} :: o in f.recs && p in f.recs && o < p ==> End(f, o) <= p)
    && (forall o {:trigger End(f, o)} :: o in f.recs ==> End(f, o) <= f.idxEnd)
    && FIRST_REC <= f.idxEnd
  }

  ghost predicate HeadAt(file: seq<Byte>, f: Files, k: nat) {
    Slot(k) in f.ptrs && f.ptrs[Slot(k)] <= PTR_MAX && Holds(file, Slot(k), PtrField(f.ptrs[Slot(k)]))
  }

  ghost predicate RecordAt(file: seq<Byte>, f: Files, o: nat)
    requires o in f.recs
  {
    InLimits(f.recs[o]) && Holds(file, o, EncodeRec(f.recs[o]))
  }

  ghost predicate DataAt(file: seq<Byte>, f: Files, a: nat)
    requires a in f.dat
  {
    Holds(file, a, f.dat[a] + [NEWLINE])
  }

  ghost predicate IndexBytes(file: seq<Byte>, f: Files) {
    && |file| == f.idxEnd && Tiled(f)
    && Holds(file, TABLE_END, [NEWLINE])
    && (forall k {:trigger HeadAt(file, f, k)} :: 0 <= k < NLIST ==> HeadAt(file, f, k))
    && (forall o {:trigger RecordAt(file, f, o)} :: o in f.recs ==> RecordAt(file, f, o))
  }

  ghost predicate Apart(f: Files, a: nat, b: nat)
    requires a in f.dat
  {
    a + |f.dat[a]| + 1 <= b
  }

  /** No two extents share a byte. */
  ghost predicate Disjoint(f: Files) {
    forall a, b {:trigger Apart(f, a, b)} :: a in f.dat && b in f.dat && a < b ==> Apart(f, a, b)
  }

  /** Each extent holds its data and a newline. */
  ghost predicate DataBytes(file: seq<Byte>, f: Files) {
    && |file| == f.datEnd && Disjoint(f)
    && (forall a {:trigger DataAt(file, f, a)} :: a in f.dat ==> DataAt(file, f, a))
  }

  // ---- Places between records ----

  /** A file offset between whole records. */
  ghost predicate AtRecord(f: Files, pos: nat) {
    pos in f.recs || pos == f.idxEnd
  }

  lemma AtRecordNext(f: Files, pos: nat)
    requires Tiled(f) && AtRecord(f, pos)
    ensures pos in f.recs ==> pos < End(f, pos) <= f.idxEnd && AtRecord(f, End(f, pos))
    ensures pos in f.recs ==> forall o :: o in f.recs && o < End(f, pos) ==> o <= pos
    ensures forall o :: o in f.recs ==> o < f.idxEnd
  {
    if pos in f.recs { assert Continues(f, pos); }
    forall o | o in f.recs ensures o < f.idxEnd { assert End(f, o) <= f.idxEnd; }
    if pos in f.recs {
      forall o | o in f.recs && o < End(f, pos) ensures o <= pos {
        var e, e' := End(f, o), End(f, pos);
      }
    }
  }

  // ---- Reading ----

  lemma ReadPtrBytes(file: seq<Byte>, f: Files, o: nat)
    requires IndexBytes(file, f) && IsSlot(f, o)
    ensures o + PTR_SZ <= |file| && Atol(file[o..o + PTR_SZ]) == PtrAt(f, o) <= PTR_MAX
  {
    if o in f.recs {
      var r := f.recs[o];
      assert RecordAt(file, f, o);
      HoldsParts(file, o, PtrField(r.ptr), LenField(BodyLen(r)) + Body(r.key, r.datoff, r.datlen));
    } else {
      var k :| 0 <= k < NLIST && o == Slot(k);
      assert HeadAt(file, f, k);
    }
  }

  lemma ReadRecBytes(file: seq<Byte>, f: Files, o: nat, sequential: bool)
    requires IndexBytes(file, f) && o in f.recs
    ensures ParseRec(file, o, sequential) == ReadBack(f.recs[o])
  {
    assert RecordAt(file, f, o);
    RecRoundTrip(file, o, f.recs[o], sequential);
  }

  lemma ReadDataBytes(file: seq<Byte>, f: Files, a: nat)
    requires DataBytes(file, f) && a in f.dat
    ensures var n := |f.dat[a]|;
            a + n + 1 <= |file| && file[a + n] == NEWLINE && file[a..a + n] == f.dat[a]
  {
    var n := |f.dat[a]|;
    assert DataAt(file, f, a);
    HoldsParts(file, a, f.dat[a], [NEWLINE]);
    assert file[a + n] == file[a + n..a + n + 1][0];
  }

  lemma RecInLimits(file: seq<Byte>, f: Files, o: nat)
    requires IndexBytes(file, f) && o in f.recs
    ensures InLimits(f.recs[o])
  {
    assert RecordAt(file, f, o);
  }

  // ---- Writing ----

  /** A splice over one pointer field or one whole record leaves every other field and record alone. */
  lemma OthersKept(file: seq<Byte>, f: Files, off: nat, bytes: seq<Byte>)
    requires IndexBytes(file, f) && off + |bytes| <= |file|
    requires (exists k :: 0 <= k < NLIST && off == Slot(k) && |bytes| == PTR_SZ)
          || (off in f.recs && |bytes| == RecSize(f.recs[off]))
    ensures var file' := Splice(file, off, bytes);
            && Holds(file', TABLE_END, [NEWLINE])
            && (forall l :: 0 <= l < NLIST && Slot(l) != off ==> HeadAt(file', f, l))
            && (forall o :: o in f.recs && o != off ==> RecordAt(file', f, o))
  {
    var file' := Splice(file, off, bytes);
    HoldsFrame(file, off, bytes, TABLE_END, [NEWLINE]);
    forall l | 0 <= l < NLIST && Slot(l) != off ensures HeadAt(file', f, l) {
      assert HeadAt(file, f, l);
      HoldsFrame(file, off, bytes, Slot(l), PtrField(f.ptrs[Slot(l)]));
    }
    forall o | o in f.recs && o != off ensures RecordAt(file', f, o) {
      assert RecordAt(file, f, o);
      assert off in f.recs ==> End(f, o) <= off || End(f, off) <= o;
      HoldsFrame(file, off, bytes, o, EncodeRec(f.recs[o]));
    }
  }

  lemma WriteHeadBytes(file: seq<Byte>, f: Files, k: nat, v: nat)
    requires IndexBytes(file, f) && k < NLIST && v <= PTR_MAX && Slot(k) !in f.recs
    ensures IndexBytes(Splice(file, Slot(k), PtrField(v)), SetPtr(f, Slot(k), v))
  {
    var file', f' := Splice(file, Slot(k), PtrField(v)), SetPtr(f, Slot(k), v);
    OthersKept(file, f, Slot(k), PtrField(v));
    SpliceHolds(file, Slot(k), PtrField(v));
    forall l | 0 <= l < NLIST ensures HeadAt(file', f', l) {
      if l != k { assert HeadAt(file', f, l); }
    }
    TiledSame(f, f');
  }

  /** Replacing the bytes of one record by those of another of the same size. */
  lemma WriteRecBytes(file: seq<Byte>, f: Files, o: nat, r: Rec)
    requires IndexBytes(file, f) && o in f.recs && InLimits(r) && RecSize(r) == RecSize(f.recs[o])
    ensures o + RecSize(r) <= |file|
    ensures IndexBytes(Splice(file, o, EncodeRec(r)), PutRec(f, o, r))
  {
    assert RecordAt(file, f, o);
    var bytes := EncodeRec(r);
    var file', f' := Splice(file, o, bytes), PutRec(f, o, r);
    assert Holds(file', o, bytes) by { SpliceHolds(file, o, bytes); }
    TiledSame(f, f');
    OthersKept(file, f, o, bytes);
    RecordReplaced(file', f, o, r);
  }

  lemma RecordReplaced(file: seq<Byte>, f: Files, o: nat, r: Rec)
    requires o in f.recs && FIRST_REC <= o && InLimits(r) && Holds(file, o, EncodeRec(r))
    requires forall l {:trigger HeadAt(file, f, l)} :: 0 <= l < NLIST && Slot(l) != o ==> HeadAt(file, f, l)
    requires forall p {:trigger RecordAt(file, f, p)} :: p in f.recs && p != o ==> RecordAt(file, f, p)
    ensures var f' := PutRec(f, o, r);
            && (forall l {:trigger HeadAt(file, f', l)} :: 0 <= l < NLIST ==> HeadAt(file, f', l))
            && (forall p {:trigger RecordAt(file, f', p)} :: p in f'.recs ==> RecordAt(file, f', p))
  {
    var f' := PutRec(f, o, r);
    forall l | 0 <= l < NLIST ensures HeadAt(file, f', l) { assert HeadAt(file, f, l); }
    forall p | p in f'.recs ensures RecordAt(file, f', p) {
      if p != o { assert RecordAt(file, f, p); }
    }
  }

  /** Only the sizes of the records matter to the tiling. */
  lemma TiledSame(f: Files, f': Files)
    requires Tiled(f) && f'.recs.Keys == f.recs.Keys && f'.idxEnd == f.idxEnd
    requires forall o :: o in f.recs ==> RecSize(f'.recs[o]) == RecSize(f.recs[o])
    ensures Tiled(f')
  {
    assert forall o :: o in f'.recs <==> o in f.recs;
    forall o | o in f'.recs ensures End(f', o) == End(f, o) && Continues(f', o) {
      assert Continues(f, o);
    }
  }

  /** Overwriting the front of a stretch whose remainder is already in place. */
  lemma SplicePrefix(file: seq<Byte>, o: nat, a: seq<Byte>, rest: seq<Byte>)
    requires Holds(file, o + |a|, rest)
    ensures Splice(file, o, a) == Splice(file, o, a + rest)
  {
    assert file[o + |a|..] == rest + file[o + |a| + |rest|..];
  }

  /** The chain pointer is the first field of a record, so writing it alone rewrites the whole record. */
  lemma PtrInRecord(file: seq<Byte>, f: Files, o: nat, v: nat)
    requires IndexBytes(file, f) && o in f.recs && v <= PTR_MAX
    ensures var r := f.recs[o].(ptr := v);
            && InLimits(r) && RecSize(r) == RecSize(f.recs[o]) && o + RecSize(r) <= |file|
            && Splice(file, o, PtrField(v)) == Splice(file, o, EncodeRec(r))
  {
    var before, r := f.recs[o], f.recs[o].(ptr := v);
    assert RecordAt(file, f, o);
    var rest := LenField(BodyLen(r)) + Body(r.key, r.datoff, r.datlen);
    HoldsParts(file, o, PtrField(before.ptr), rest);
    SplicePrefix(file, o, PtrField(v), rest);
  }

  lemma WritePtrBytes(file: seq<Byte>, f: Files, o: nat, v: nat)
    requires IndexBytes(file, f) && IsSlot(f, o) && v <= PTR_MAX
    ensures o + PTR_SZ <= |file|
    ensures IndexBytes(Splice(file, o, PtrField(v)), SetPtr(f, o, v))
  {
    if o in f.recs {
      PtrInRecord(file, f, o, v);
      WriteRecBytes(file, f, o, f.recs[o].(ptr := v));
    } else {
      var k :| 0 <= k < NLIST && o == Slot(k);
      WriteHeadBytes(file, f, k, v);
    }
  }

  lemma AppendRecBytes(file: seq<Byte>, f: Files, r: Rec)
    requires IndexBytes(file, f) && InLimits(r)
    ensures IndexBytes(file + EncodeRec(r), AddRec(f, r))
  {
    var e := EncodeRec(r);
    var file', f' := file + e, AddRec(f, r);
    HoldsExtended(file, e, TABLE_END, [NEWLINE]);
    forall l | 0 <= l < NLIST ensures HeadAt(file', f', l) {
      assert HeadAt(file, f, l);
      HoldsExtended(file, e, Slot(l), PtrField(f.ptrs[Slot(l)]));
    }
    forall o | o in f'.recs ensures RecordAt(file', f', o) {
      if o != f.idxEnd {
        assert RecordAt(file, f, o);
        HoldsExtended(file, e, o, EncodeRec(f.recs[o]));
      }
    }
    TiledAppended(f, r);
  }

  lemma TiledAppended(f: Files, r: Rec)
    requires Tiled(f)
    ensures Tiled(AddRec(f, r))
  {
    forall o | o in f.recs ensures RecSize(f.recs[o]) > 0 {}
    assert RecSize(r) > 0;
    hide RecSize;
    var f' := AddRec(f, r);
    forall o | o in f.recs ensures o != f.idxEnd && End(f', o) == End(f, o) {
      assert End(f, o) <= f.idxEnd;
    }
    forall o | o in f'.recs ensures Continues(f', o) {
      if o != f.idxEnd { assert Continues(f, o); }
    }
  }

  /** Extents of the same lengths in the same places. */
  lemma DisjointSame(f: Files, f': Files)
    requires Disjoint(f) && f'.dat.Keys == f.dat.Keys && forall a :: a in f.dat ==> |f'.dat[a]| == |f.dat[a]|
    ensures Disjoint(f')
  {
    forall a, b | a in f'.dat && b in f'.dat && a < b ensures Apart(f', a, b) { assert Apart(f, a, b); }
  }

  /** An appended extent begins where the file ended. */
  lemma DisjointAppended(f: Files, data: CString)
    requires Disjoint(f) && forall a :: a in f.dat ==> a + |f.dat[a]| + 1 <= f.datEnd
    ensures Disjoint(AddData(f, data))
  {
    var f' := AddData(f, data);
    assert f.datEnd !in f.dat;
    forall a, b | a in f'.dat && b in f'.dat && a < b ensures Apart(f', a, b) {
      assert a in f.dat && f'.dat[a] == f.dat[a];
      if b != f.datEnd { assert Apart(f, a, b); }
    }
  }

  lemma WriteDataBytes(file: seq<Byte>, f: Files, a: nat, data: CString)
    requires DataBytes(file, f) && a in f.dat && |data| == |f.dat[a]|
    ensures a + |data| + 1 <= |file| && DataBytes(Splice(file, a, data + [NEWLINE]), PutData(f, a, data))
  {
    var bytes := data + [NEWLINE];
    assert DataAt(file, f, a);
    var file', f' := Splice(file, a, bytes), PutData(f, a, data);
    forall b, c | b in f'.dat && c in f'.dat && b < c ensures Apart(f', b, c) { assert Apart(f, b, c); }
    forall b | b in f'.dat ensures DataAt(file', f', b) {
      if b == a {
        SpliceHolds(file, a, bytes);
      } else {
        assert DataAt(file, f, b);
        assert if a < b then Apart(f, a, b) else Apart(f, b, a);
        HoldsFrame(file, a, bytes, b, f.dat[b] + [NEWLINE]);
      }
    }
  }

  lemma AppendDataBytes(file: seq<Byte>, f: Files, data: CString)
    requires DataBytes(file, f)
    ensures DataBytes(file + (data + [NEWLINE]), AddData(f, data))
  {
    var bytes := data + [NEWLINE];
    var file', f' := file + bytes, AddData(f, data);
    forall b | b in f'.dat ensures DataAt(file', f', b) {
      if b == f.datEnd {
        HoldsExtended(file, bytes, 0, []);
      } else {
        assert DataAt(file, f, b);
        HoldsExtended(file, bytes, b, f.dat[b] + [NEWLINE]);
      }
    }
    forall b | b in f.dat ensures b < f.datEnd { assert DataAt(file, f, b); }
    forall b, c | b in f'.dat && c in f'.dat && b < c ensures Apart(f', b, c) {
      assert DataAt(file, f, b);
      if c != f.datEnd { assert Apart(f, b, c); }
    }
  }

  lemma DataIgnoresIndex(file: seq<Byte>, f: Files, f': Files)
    requires DataBytes(file, f) && f'.dat == f.dat && f'.datEnd == f.datEnd
    ensures DataBytes(file, f')
  {
    forall a | a in f'.dat ensures DataAt(file, f', a) { assert DataAt(file, f, a); }
    forall a, b | a in f'.dat && b in f'.dat && a < b ensures Apart(f', a, b) { assert Apart(f, a, b); }
  }

  lemma IndexIgnoresData(file: seq<Byte>, f: Files, f': Files)
    requires IndexBytes(file, f) && f' == f.(dat := f'.dat, datEnd := f'.datEnd)
    ensures IndexBytes(file, f')
  {
    TiledSame(f, f');
    forall k | 0 <= k < NLIST ensures HeadAt(file, f', k) { assert HeadAt(file, f, k); }
    forall o | o in f'.recs ensures RecordAt(file, f', o) { assert RecordAt(file, f, o); }
  }

  // ---- The file as a concatenation ----

  /** Concatenated bytes of the records from offset `o` on. */
  ghost function Records(f: Files, o: nat): seq<Byte>
    requires Tiled(f) && forall p :: p in f.recs ==> InLimits(f.recs[p])
    decreases f.idxEnd - o
  {
    if o in f.recs then
      assert InLimits(f.recs[o]);
      EncodeRec(f.recs[o]) + Records(f, End(f, o))
    else []
  }

  /** Concatenated fields of the first n list heads. */
  ghost function Header(ptrs: map<nat, nat>, n: nat): seq<Byte>
    requires forall k {:trigger Slot(k)} :: 0 <= k < n ==> Slot(k) in ptrs
  {
    if n == 0 then [] else Header(ptrs, n - 1) + Field(ptrs[Slot(n - 1)], PTR_SZ)
  }

  lemma AllInLimits(file: seq<Byte>, f: Files)
    requires IndexBytes(file, f)
    ensures forall p :: p in f.recs ==> InLimits(f.recs[p])
  {
    forall p | p in f.recs ensures InLimits(f.recs[p]) { assert RecordAt(file, f, p); }
  }

  lemma HoldsThenRest(file: seq<Byte>, o: nat, bytes: seq<Byte>)
    requires Holds(file, o, bytes)
    ensures file[o..] == bytes + file[o + |bytes|..]
  {
  }

  lemma {:induction false} RecordsFrom(file: seq<Byte>, f: Files, o: nat)
    requires IndexBytes(file, f) && (o in f.recs || o == f.idxEnd)
    requires forall p :: p in f.recs ==> InLimits(f.recs[p])
    ensures o <= |file| && file[o..] == Records(f, o)
    decreases f.idxEnd - o
  {
    if o in f.recs {
      assert RecordAt(file, f, o);
      assert End(f, o) <= f.idxEnd && Continues(f, o);
      RecordsFrom(file, f, End(f, o));
      HoldsThenRest(file, o, EncodeRec(f.recs[o]));
    }
  }

  lemma {:induction false} HeaderUpTo(file: seq<Byte>, f: Files, n: nat)
    requires IndexBytes(file, f) && n <= NLIST
    requires forall k {:trigger Slot(k)} :: 0 <= k < NLIST ==> Slot(k) in f.ptrs
    ensures Slot(n) <= |file| && file[..Slot(n)] == Header(f.ptrs, n)
  {
    if n > 0 {
      HeaderUpTo(file, f, n - 1);
      assert HeadAt(file, f, n - 1);
      assert file[..Slot(n)] == file[..Slot(n - 1)] + file[Slot(n - 1)..Slot(n - 1) + PTR_SZ];
    }
  }

  /** The index file is exactly the pointer table, a newline, and whole records one after the other. */
  lemma FileIsConcatenation(file: seq<Byte>, f: Files)
    requires IndexBytes(file, f)
    ensures forall p :: p in f.recs ==> InLimits(f.recs[p])
    ensures forall k {:trigger Slot(k)} :: 0 <= k < NLIST ==> Slot(k) in f.ptrs
    ensures file == Header(f.ptrs, NLIST) + [NEWLINE] + Records(f, FIRST_REC)
  {
    AllInLimits(file, f);
    forall k {:trigger Slot(k)} | 0 <= k < NLIST ensures Slot(k) in f.ptrs { assert HeadAt(file, f, k); }
    HeaderUpTo(file, f, NLIST);
    RecordsFrom(file, f, FIRST_REC);
    assert file[TABLE_END..FIRST_REC] == [NEWLINE];
    assert file == file[..TABLE_END] + file[TABLE_END..FIRST_REC] + file[FIRST_REC..];
  }
}
