/**
 The database library itself, run by one process: every call works on the bytes of the two files through the
 fields of the handle. The ghost fields say what the bytes stand for, and `Entries` is the plain map the
 whole structure implements. Lock calls are the subject of DbInterleaving.
 */
module DbLibrary {
  import opened Options
  import opened Seals
  import opened CText
  import opened DbFormat
  import opened DbSpec
  import opened DbFiles
  import opened DbBytes
  import opened DbEffects
  import opened DbSeparators

  /** No limit is reached by storing this entry into files of these lengths. */
  predicate Fits(idxLen: nat, datLen: nat, key: CString, data: CString) {
    && DATLEN_MIN <= |data| + 1 <= DATLEN_MAX
    && idxLen <= PTR_MAX
    && IDXLEN_MIN <= BodyLen(Rec(0, key, datLen, |data| + 1)) <= IDXLEN_MAX
  }

  /** The bytes stand for linked records, and the chains among these hold exactly the entries of m. */
  ghost predicate Good(hash: Hasher, idx: seq<Byte>, dat: seq<Byte>, f: Files, g: Shape, m: map<CString, CString>) {
    IndexBytes(idx, f) && DataBytes(dat, f) && Kept(hash, f, g, m) && CleanBehind(f, g)
  }

  /** The map two well-formed files implement, sealed so that the methods do not look behind it. */
  ghost function Meaning(hash: Hasher, idx: seq<Byte>, dat: seq<Byte>, f: Files, g: Shape, m: map<CString, CString>)
    : Option<map<CString, CString>>
  {
    if forall t {:trigger Opened(t)} :: Opened(t) ==> Good(hash, idx, dat, f, g, m) then Some(m) else None
  }

  /** Any bytes that stand for f mean m. */
  ghost predicate Links(hash: Hasher, f: Files, g: Shape, m: map<CString, CString>) {
    && |g.lists| == NLIST
    && forall idx, dat {:trigger Meaning(hash, idx, dat, f, g, m)} ::
         IndexBytes(idx, f) && DataBytes(dat, f) ==> Meaning(hash, idx, dat, f, g, m) == Some(m)
  }

  // ---- What a method may conclude from the files having a meaning ----

  lemma Open(hash: Hasher, idx: seq<Byte>, dat: seq<Byte>, f: Files, g: Shape, m: map<CString, CString>)
    requires Meaning(hash, idx, dat, f, g, m).Some?
    ensures Good(hash, idx, dat, f, g, m)
  {
    assert Opened(true);
  }

  lemma Seal(hash: Hasher, f: Files, g: Shape, m: map<CString, CString>)
    requires Kept(hash, f, g, m) && CleanBehind(f, g)
    ensures Links(hash, f, g, m)
  {
  }

  lemma MeansBytes(hash: Hasher, idx: seq<Byte>, dat: seq<Byte>, f: Files, g: Shape, m: map<CString, CString>)
    requires Meaning(hash, idx, dat, f, g, m).Some?
    ensures IndexBytes(idx, f) && DataBytes(dat, f)
  {
    Open(hash, idx, dat, f, g, m);
  }

  lemma MeansWalkable(hash: Hasher, idx: seq<Byte>, dat: seq<Byte>, f: Files, g: Shape, m: map<CString, CString>,
                      k: nat)
    requires Meaning(hash, idx, dat, f, g, m).Some? && k < NLIST == |g.lists|
    ensures IndexBytes(idx, f) && Walkable(f, k, g.lists[k]) && PtrAt(f, Slot(k)) == Elem(g.lists[k], 0)
  {
    Open(hash, idx, dat, f, g, m);
    ListWalkable(f, g, k);
    HeadIs(f, g, k);
  }

  /** The chain of a key that is not stuck, and the free list, can be read from end to end; of a stuck one not even
      the first record can be. */
  lemma MeansReads(hash: Hasher, idx: seq<Byte>, dat: seq<Byte>, f: Files, g: Shape, m: map<CString, CString>,
                   key: CString)
    requires Meaning(hash, idx, dat, f, g, m).Some? && |g.lists| == NLIST && InTable(hash)
    ensures var xs := g.lists[1 + hash(key)];
            && (Stuck(hash, m, key) <==> |xs| > 0 && xs[0] in f.recs && SEP in f.recs[xs[0]].key)
            && (Stuck(hash, m, key) || CleanChain(f, xs))
    ensures CleanChain(f, g.lists[FREE])
  {
    Open(hash, idx, dat, f, g, m);
    StuckIff(hash, f, g, m, key);
    FreeClean(f, g);
  }

  lemma MeansSearch(hash: Hasher, idx: seq<Byte>, dat: seq<Byte>, f: Files, g: Shape, m: map<CString, CString>,
                    key: CString, found: Option<nat>)
    requires Meaning(hash, idx, dat, f, g, m).Some?
    requires |g.lists| == NLIST && InTable(hash) && Outcome(f, g.lists[1 + hash(key)], key, found)
    ensures found.Some? <==> key in m
  {
    Open(hash, idx, dat, f, g, m);
    SearchEnds(hash, f, g, m, key, found);
  }

  lemma MeansFound(hash: Hasher, idx: seq<Byte>, dat: seq<Byte>, f: Files, g: Shape, m: map<CString, CString>,
                   k: nat, pos: nat)
    requires Meaning(hash, idx, dat, f, g, m).Some? && |g.lists| == NLIST && 1 <= k < NLIST && pos < |g.lists[k]|
    ensures IndexBytes(idx, f) && DataBytes(dat, f)
    ensures var o := g.lists[k][pos];
            && o in f.recs && f.recs[o].datoff in f.dat && f.recs[o].datlen == |f.dat[f.recs[o].datoff]| + 1
            && f.recs[o].key in m && m[f.recs[o].key] == f.dat[f.recs[o].datoff]
  {
    Open(hash, idx, dat, f, g, m);
    FoundEntry(hash, f, g, m, k, pos);
  }

  lemma MeansOverwrite(hash: Hasher, idx: seq<Byte>, dat: seq<Byte>, f: Files, g: Shape, m: map<CString, CString>,
                       k: nat, pos: nat, data: CString)
    requires Meaning(hash, idx, dat, f, g, m).Some? && NoneLoose(g)
    requires |g.lists| == NLIST && 1 <= k < NLIST && pos < |g.lists[k]|
    requires var o := g.lists[k][pos]; o in f.recs && |data| + 1 == f.recs[o].datlen
    ensures var r := f.recs[g.lists[k][pos]]; Links(hash, PutData(f, r.datoff, data), g, m[r.key := data])
  {
    Open(hash, idx, dat, f, g, m);
    OverwriteKeeps(hash, f, g, k, pos, data, m);
    var r := f.recs[g.lists[k][pos]];
    assert CleanBehind(PutData(f, r.datoff, data), g);
    Seal(hash, PutData(f, r.datoff, data), g, m[r.key := data]);
  }

  lemma MeansDelete(hash: Hasher, idx: seq<Byte>, dat: seq<Byte>, f: Files, g: Shape, m: map<CString, CString>,
                    k: nat, pos: nat)
    requires Meaning(hash, idx, dat, f, g, m).Some? && NoneLoose(g)
    requires |g.lists| == NLIST && 1 <= k < NLIST && pos < |g.lists[k]|
    ensures IndexBytes(idx, f) && DataBytes(dat, f) && Deletable(f, k, g.lists[k], pos)
    ensures var o := g.lists[k][pos]; var g' := Pushed(Unlinked(g, k, pos, 0), FREE, o);
            Links(hash, Deleted(f, k, g.lists[k], pos), g', m - {f.recs[o].key}) && NoneLoose(g')
  {
    Open(hash, idx, dat, f, g, m);
    DeletePlaces(f, g, k, pos);
    DeleteKeeps(hash, f, g, k, pos, m);
    DeleteBehind(f, g, k, pos);
    var o := g.lists[k][pos];
    Seal(hash, Deleted(f, k, g.lists[k], pos), Pushed(Unlinked(g, k, pos, 0), FREE, o), m - {f.recs[o].key});
  }

  lemma MeansTakeFree(hash: Hasher, idx: seq<Byte>, dat: seq<Byte>, f: Files, g: Shape, m: map<CString, CString>,
                      pos: nat)
    requires Meaning(hash, idx, dat, f, g, m).Some? && NoneLoose(g) && |g.lists| == NLIST && pos < |g.lists[FREE]|
    ensures IndexBytes(idx, f) && DataBytes(dat, f)
    ensures var o := g.lists[FREE][pos]; var slot := Node(FREE, g.lists[FREE], pos);
            && o in f.recs && IsSlot(f, slot)
            && var f', g' := SetPtr(f, slot, f.recs[o].ptr), Unlinked(g, FREE, pos, 0);
            && Links(hash, f', g', m) && OneLoose(g', o) && o in f'.recs && f'.recs[o] == f.recs[o]
  {
    Open(hash, idx, dat, f, g, m);
    TakeFree(hash, f, g, pos, m);
    FreePlaces(f, g, pos);
    var o := g.lists[FREE][pos];
    TakeBehind(f, g, Node(FREE, g.lists[FREE], pos), f.recs[o].ptr, pos);
    Seal(hash, SetPtr(f, Node(FREE, g.lists[FREE], pos), f.recs[o].ptr), Unlinked(g, FREE, pos, 0), m);
  }

  lemma MeansReuse(hash: Hasher, idx: seq<Byte>, dat: seq<Byte>, f: Files, g: Shape, m: map<CString, CString>,
                   k: nat, o: nat, r: Rec, data: CString)
    requires Meaning(hash, idx, dat, f, g, m).Some? && OneLoose(g, o) && o in f.recs && |g.lists| == NLIST
             && 1 <= k < NLIST
    requires r.datoff == f.recs[o].datoff && r.datlen == f.recs[o].datlen == |data| + 1 && r.ptr == Elem(g.lists[k], 0)
    requires hash(r.key) == k - 1 && r.key !in m && CleanChain(f, g.lists[k])
    ensures IndexBytes(idx, f) && DataBytes(dat, f)
    ensures r.datoff in f.dat && |f.dat[r.datoff]| == |data|
    ensures Links(hash, Reused(f, k, o, r, data), Pushed(g, k, o), m[r.key := data]) && NoneLoose(Pushed(g, k, o))
  {
    Open(hash, idx, dat, f, g, m);
    HeadIs(f, g, k);
    LooseExtent(f, g, o);
    ReuseKeeps(hash, f, g, k, o, r, data, m);
    ReuseBehind(f, g, k, o, r, data);
    Seal(hash, Reused(f, k, o, r, data), Pushed(g, k, o), m[r.key := data]);
  }

  lemma MeansInsert(hash: Hasher, idx: seq<Byte>, dat: seq<Byte>, f: Files, g: Shape, m: map<CString, CString>,
                    k: nat, key: CString, data: CString)
    requires Meaning(hash, idx, dat, f, g, m).Some? && NoneLoose(g) && |g.lists| == NLIST
    requires k == 1 + hash(key) && InTable(hash) && key !in m && CleanChain(f, g.lists[k])
    ensures IndexBytes(idx, f) && DataBytes(dat, f)
    ensures Links(hash, Inserted(f, k, key, data), InsertedShape(f, g, k), m[key := data])
    ensures NoneLoose(InsertedShape(f, g, k))
  {
    Open(hash, idx, dat, f, g, m);
    InsertKeeps(hash, f, g, k, key, data, m);
    InsertBehind(f, g, k, key, data);
    Seal(hash, Inserted(f, k, key, data), InsertedShape(f, g, k), m[key := data]);
  }

  lemma MeansExtent(hash: Hasher, idx: seq<Byte>, dat: seq<Byte>, f: Files, g: Shape, m: map<CString, CString>, o: nat)
    requires Meaning(hash, idx, dat, f, g, m).Some? && o in f.recs
    ensures f.recs[o].datoff in f.dat && f.recs[o].datlen == |f.dat[f.recs[o].datoff]| + 1
  {
    Open(hash, idx, dat, f, g, m);
  }

  // ---- Scanning ----

  ghost predicate BlankBetween(f: Files, a: nat, b: nat) {
    forall o :: o in f.recs && a <= o < b ==> AllBlank(f.recs[o].key)
  }

  /** The rows are the non-blank records before `end`, in file order, with their data. */
  ghost predicate Scanned(f: Files, end: nat, rows: seq<(CString, CString)>, places: seq<nat>) {
    && |places| == |rows|
    && (forall i :: 0 <= i < |places| ==> places[i] in f.recs && places[i] < end && f.recs[places[i]].datoff in f.dat)
    && (forall i :: 0 <= i < |places| ==>
          var r := f.recs[places[i]]; rows[i] == (r.key, f.dat[r.datoff]) && !AllBlank(r.key))
    && (forall i, j :: 0 <= i < j < |places| ==> places[i] < places[j])
    && (forall o :: o in f.recs && o < end && !AllBlank(f.recs[o].key) ==> o in places)
  }

  lemma BlankStep(f: Files, a: nat, pos: nat)
    requires Tiled(f) && pos in f.recs && a <= pos && BlankBetween(f, a, pos)
    ensures AllBlank(f.recs[pos].key) ==> BlankBetween(f, a, End(f, pos))
  {
    AtRecordNext(f, pos);
  }

  lemma TiledBytes(idx: seq<Byte>, f: Files)
    requires IndexBytes(idx, f)
    ensures Tiled(f)
  {
  }

  lemma ScannedStart(f: Files)
    requires Tiled(f)
    ensures Scanned(f, FIRST_REC, [], [])
  {
  }

  lemma ScannedPlaces(f: Files, end: nat, rows: seq<(CString, CString)>, places: seq<nat>)
    requires Scanned(f, end, rows, places)
    ensures |places| == |rows| && forall i, j :: 0 <= i < j < |places| ==> places[i] < places[j]
    ensures forall i :: 0 <= i < |places| ==> places[i] in f.recs && f.recs[places[i]].key == rows[i].0
  {
  }

  lemma ScannedEnd(f: Files, at: nat, rows: seq<(CString, CString)>, places: seq<nat>)
    requires Scanned(f, at, rows, places) && BlankBetween(f, at, f.idxEnd) && at <= f.idxEnd
    ensures Scanned(f, f.idxEnd, rows, places)
  {
  }

  lemma ScannedStep(f: Files, at: nat, rows: seq<(CString, CString)>, places: seq<nat>, o: nat, row: (CString, CString))
    requires Tiled(f) && Scanned(f, at, rows, places) && at <= o && o in f.recs && BlankBetween(f, at, o)
    requires f.recs[o].datoff in f.dat && row == (f.recs[o].key, f.dat[f.recs[o].datoff]) && !AllBlank(row.0)
    ensures Scanned(f, End(f, o), rows + [row], places + [o])
  {
    AtRecordNext(f, o);
    var places' := places + [o];
    forall p | p in f.recs && p < End(f, o) && !AllBlank(f.recs[p].key) ensures p in places' {
      if p < at { assert p in places; } else if p == o { assert places'[|places|] == o; }
    }
  }

  /** The scan agrees with the union of the chains: blank records are exactly what it skips. */
  lemma MeansScan(hash: Hasher, idx: seq<Byte>, dat: seq<Byte>, f: Files, g: Shape, m: map<CString, CString>,
                  rows: seq<(CString, CString)>, places: seq<nat>)
    requires Meaning(hash, idx, dat, f, g, m).Some? && NoneLoose(g) && Scanned(f, f.idxEnd, rows, places)
    ensures forall key, data :: (key, data) in rows <==> key in m && m[key] == data && !AllBlank(key)
    ensures forall i, j :: 0 <= i < j < |rows| ==> rows[i].0 != rows[j].0
  {
    Open(hash, idx, dat, f, g, m);
    forall i | 0 <= i < |rows| ensures OnItsChain(hash, f, g, m, places[i]) { LiveOnChain(hash, f, g, m, places[i]); }
    forall key, data | key in m && m[key] == data && !AllBlank(key) ensures (key, data) in rows {
      EntryScanned(hash, f, g, m, rows, places, key);
    }
    forall i, j | 0 <= i < j < |rows| ensures rows[i].0 != rows[j].0 { KeysApart(hash, f, g, m, places[i], places[j]); }
  }

  lemma EntryScanned(hash: Hasher, f: Files, g: Shape, m: map<CString, CString>,
                     rows: seq<(CString, CString)>, places: seq<nat>, key: CString)
    requires Kept(hash, f, g, m) && Scanned(f, f.idxEnd, rows, places) && key in m && !AllBlank(key)
    ensures (key, m[key]) in rows
  {
    var k := 1 + hash(key);
    assert ChainAgrees(hash, f, g, k, m) && HasKey(f, g.lists[k], key);
    var o :| o in g.lists[k] && o in f.recs && f.recs[o].key == key;
    var i :| 0 <= i < |places| && places[i] == o;
    assert rows[i] == (key, m[key]);
  }

  lemma KeysApart(hash: Hasher, f: Files, g: Shape, m: map<CString, CString>, o: nat, p: nat)
    requires OnItsChain(hash, f, g, m, o) && OnItsChain(hash, f, g, m, p) && ChainsAgree(hash, f, g, m) && o != p
    ensures f.recs[o].key != f.recs[p].key
  {
    assert ChainAgrees(hash, f, g, 1 + hash(f.recs[o].key), m);
    assert f.recs[o].key == f.recs[p].key ==> SameKey(f, o, p);
  }

  ghost predicate OnItsChain(hash: Hasher, f: Files, g: Shape, m: map<CString, CString>, o: nat) {
    && o in f.recs && f.recs[o].datoff in f.dat && |g.lists| == NLIST && InTable(hash)
    && var r := f.recs[o];
    o in g.lists[1 + hash(r.key)] && r.key in m && m[r.key] == f.dat[r.datoff]
  }

  lemma LiveOnChain(hash: Hasher, f: Files, g: Shape, m: map<CString, CString>, o: nat)
    requires Kept(hash, f, g, m) && NoneLoose(g) && o in f.recs && !AllBlank(f.recs[o].key)
    ensures OnItsChain(hash, f, g, m, o)
  {
    var k := g.owner[o];
    assert o in g.lists[k] && k != FREE;
    assert ChainAgrees(hash, f, g, k, m);
  }

  /** After a scan that read every record there is none with a separator. */
  lemma ScannedClean(f: Files, rows: seq<(CString, CString)>, places: seq<nat>)
    requires Tiled(f) && Scanned(f, f.idxEnd, rows, places) && forall i :: 0 <= i < |rows| ==> SEP !in rows[i].0
    ensures forall o :: o in f.recs ==> SEP !in f.recs[o].key
  {
    AtRecordNext(f, f.idxEnd);
    forall o | o in f.recs ensures SEP !in f.recs[o].key {
      if !AllBlank(f.recs[o].key) {
        var i :| 0 <= i < |places| && places[i] == o;
        assert rows[i].0 == f.recs[o].key;
      }
    }
  }

  lemma MeansDirty(hash: Hasher, idx: seq<Byte>, dat: seq<Byte>, f: Files, g: Shape, m: map<CString, CString>)
    requires Meaning(hash, idx, dat, f, g, m).Some? && NoneLoose(g)
    ensures (exists d :: d in m && SEP in d) <==> (exists o :: o in f.recs && SEP in f.recs[o].key)
  {
    Open(hash, idx, dat, f, g, m);
    DirtyLives(hash, f, g, m);
  }

  /** A record with a key and data of just these lengths. */
  predicate Suits(f: Files, o: nat, keylen: nat, len: nat) {
    o in f.recs && |f.recs[o].key| == keylen && f.recs[o].datlen == len
  }

  /** Each file is longer by one record and by the data of this entry, or as long as before. */
  predicate GrownBy(idx: seq<Byte>, dat: seq<Byte>, idx': seq<Byte>, dat': seq<Byte>, key: CString, data: CString,
                    grows: bool)
  {
    && |idx'| == |idx| + (if grows then RecSize(Rec(0, key, |dat|, |data| + 1)) else 0)
    && |dat'| == |dat| + if grows then |data| + 1 else 0
  }

  class Db {
    const hash: Hasher

    // The two files, and the file offset of the index descriptor
    var idxFile: seq<Byte>
    var datFile: seq<Byte>
    var idxPos: nat

    // The handle's fields
    var idxbuf: CString
    var datbuf: CString
    var idxoff: nat
    var datoff: nat
    var datlen: nat
    var ptrval: nat
    var ptroff: nat
    var chainoff: nat

    ghost var F: Files
    ghost var G: Shape
    ghost var Entries: map<CString, CString>

    /** The map the database holds; between calls there is one, and every record is on a list. */
    ghost function Contents(): Option<map<CString, CString>>
      reads this
    {
      if NoneLoose(G) && |G.lists| == NLIST && InTable(hash) then Meaning(hash, idxFile, datFile, F, G, Entries)
      else None
    }

    ghost predicate Valid()
      reads this
    {
      Contents() == Some(Entries)
    }

    // ---- Opening a new database ----

    /** The pointer table that db_open writes: all zeros, and a newline. */
    static method NewTable() returns (heads: seq<Byte>)
      ensures |heads| == FIRST_REC && IndexBytes(heads, EmptyFiles())
    {
      heads := [];
      ghost var f := EmptyFiles();
      for i := 0 to NLIST
        invariant |heads| == Slot(i) && f == EmptyFiles()
        invariant forall k :: 0 <= k < i ==> HeadAt(heads, f, k)
      {
        forall k | 0 <= k <= i ensures HeadAt(heads + PtrField(0), f, k) {
          if k < i { assert HeadAt(heads, f, k); }
          HoldsExtended(heads, PtrField(0), if k < i then Slot(k) else 0, if k < i then PtrField(0) else []);
        }
        heads := heads + PtrField(0);
      }
      forall k | 0 <= k < NLIST ensures HeadAt(heads + [NEWLINE], f, k) {
        assert HeadAt(heads, f, k);
        HoldsExtended(heads, [NEWLINE], Slot(k), PtrField(0));
      }
      HoldsExtended(heads, [NEWLINE], 0, []);
      heads := heads + [NEWLINE];
    }

    /** db_open with O_CREAT and O_TRUNC. */
    constructor (hash: Hasher)
      requires InTable(hash)
      ensures Valid() && Entries == map[] && this.hash == hash
      ensures |idxFile| == idxPos == FIRST_REC && datFile == []
    {
      this.hash := hash;
      datFile, datbuf, idxbuf := [], [], [];
      idxoff, datoff, datlen, ptrval, ptroff, chainoff := 0, 0, 0, 0, 0, 0;
      idxFile, idxPos := [], FIRST_REC;
      F, G, Entries := EmptyFiles(), EmptyShape(), map[];
      new;
      idxFile := NewTable();
      EmptyKept(hash);
      Seal(hash, F, G, Entries);
    }

    // ---- Pointers and records ----

    /** _db_readptr */
    method ReadPtr(offset: nat) returns (v: nat)
      requires IndexBytes(idxFile, F) && IsSlot(F, offset)
      modifies `idxPos
      ensures v == PtrAt(F, offset) <= PTR_MAX
    {
      ReadPtrBytes(idxFile, F, offset);
      idxPos := offset + PTR_SZ;
      var n := Atol(idxFile[offset..offset + PTR_SZ]);
      v := n;
    }

    /** _db_writeptr */
    method WritePtr(offset: nat, v: nat) returns (ok: bool)
      requires IndexBytes(idxFile, F) && DataBytes(datFile, F) && IsSlot(F, offset)
      modifies `idxPos, `idxFile, `F
      ensures ok <==> v <= PTR_MAX
      ensures ok ==> IndexBytes(idxFile, F) && DataBytes(datFile, F)
      ensures ok ==> F == SetPtr(old(F), offset, v) && |idxFile| == |old(idxFile)|
    {
      if v > PTR_MAX { return false; }
      WritePtrBytes(idxFile, F, offset, v);
      idxFile := PWrite(idxFile, offset, PtrField(v));
      idxPos := offset + PTR_SZ;
      F := SetPtr(F, offset, v);
      DataIgnoresIndex(datFile, old(F), F);
      return true;
    }

    /** _db_readidx: `offset` 0 means the next record in sequence. */
    method ReadIdx(offset: nat) returns (r: ReadResult)
      requires IndexBytes(idxFile, F)
      requires if offset == 0 then idxPos in F.recs || idxPos == F.idxEnd else offset in F.recs
      modifies `idxPos, `idxbuf, `idxoff, `datoff, `datlen, `ptrval
      ensures idxoff == if offset == 0 then old(idxPos) else offset
      ensures r == if idxoff in F.recs then ReadBack(F.recs[idxoff]) else Eof
      ensures r.Read? ==> idxbuf == r.rec.key && datoff == r.rec.datoff && datlen == r.rec.datlen && ptrval == r.rec.ptr
      ensures r.Read? ==> idxPos == End(F, idxoff)
      ensures r.Eof? ==> idxPos == F.idxEnd
    {
      idxoff := if offset == 0 then idxPos else offset;
      if idxoff in F.recs { ReadRecBytes(idxFile, F, idxoff, offset == 0); }
      assert idxoff == F.idxEnd ==> idxoff !in F.recs by {
        if idxoff in F.recs { assert End(F, idxoff) <= F.idxEnd; }
      }
      r := ParseRec(idxFile, idxoff, offset == 0);
      if r.Read? {
        idxbuf, datoff, datlen, ptrval := r.rec.key, r.rec.datoff, r.rec.datlen, r.rec.ptr;
        idxPos := idxoff + RecSize(r.rec);
      }
    }

    /** The bytes of a record go to `idxoff`. */
    method PutIdx(bytes: seq<Byte>, append: bool, ghost r: Rec)
      requires IndexBytes(idxFile, F) && DataBytes(datFile, F) && InLimits(r) && bytes == EncodeRec(r)
      requires if append then idxoff == F.idxEnd else idxoff in F.recs && RecSize(r) == RecSize(F.recs[idxoff])
      modifies `idxPos, `idxFile, `F
      ensures IndexBytes(idxFile, F) && DataBytes(datFile, F)
      ensures F == if append then AddRec(old(F), r) else PutRec(old(F), idxoff, r)
      ensures |idxFile| == |old(idxFile)| + if append then |bytes| else 0
    {
      hide DataBytes, Tiled, Holds, HeadAt, RecordAt, DataAt, Disjoint, RecSize;
      if append {
        AppendRecBytes(idxFile, F, r);
        assert idxFile[..idxoff] == idxFile;
        idxFile, F := PWrite(idxFile, idxoff, bytes), AddRec(F, r);
      } else {
        WriteRecBytes(idxFile, F, idxoff, r);
        idxFile, F := PWrite(idxFile, idxoff, bytes), PutRec(F, idxoff, r);
      }
      idxPos := idxoff + |bytes|;
      DataIgnoresIndex(datFile, old(F), F);
    }

    /** _db_writeidx: at `offset` or, when appending, at the end. Takes the data fields from the handle. */
    method WriteIdx(key: CString, offset: nat, append: bool, ptr: nat) returns (ok: bool)
      requires IndexBytes(idxFile, F) && DataBytes(datFile, F) && 0 < datlen <= DATLEN_MAX
      requires !append ==> offset in F.recs && RecSize(Rec(ptr, key, datoff, datlen)) == RecSize(F.recs[offset])
      modifies `idxPos, `idxFile, `idxbuf, `idxoff, `ptrval, `F
      ensures ok <==> Writable(Rec(ptr, key, datoff, datlen))
      ensures ok ==> IndexBytes(idxFile, F) && DataBytes(datFile, F)
      ensures ok ==> idxoff == (if append then old(F).idxEnd else offset)
      ensures ok ==> var r := Rec(ptr, key, datoff, datlen);
                     F == if append then AddRec(old(F), r) else PutRec(old(F), offset, r)
      ensures ok && !append ==> |idxFile| == |old(idxFile)|
      ensures ok && append ==> |idxFile| == |old(idxFile)| + RecSize(Rec(ptr, key, datoff, datlen))
      ensures ok ==> |idxFile| <= |old(idxFile)| + REC_MAX
    {
      ptrval := ptr;
      if ptr > PTR_MAX { return false; }
      idxbuf := Body(key, datoff, datlen);
      var len := |idxbuf|;
      if len < IDXLEN_MIN || len > IDXLEN_MAX { return false; }
      assert |idxFile| == F.idxEnd;
      idxoff := if append then |idxFile| else offset;
      var bytes := PtrField(ptr) + (LenField(len) + idxbuf);
      hide IndexBytes, DataBytes;
      PutIdx(bytes, append, Rec(ptr, key, datoff, datlen));
      return true;
    }

    // ---- Data ----

    /** _db_readdat */
    method ReadDat() returns (data: CString)
      requires DataBytes(datFile, F) && datoff in F.dat && datlen == |F.dat[datoff]| + 1
      modifies `datbuf
      ensures data == datbuf == F.dat[datoff]
    {
      ReadDataBytes(datFile, F, datoff);
      var buf := datFile[datoff..datoff + datlen];
      assert buf[datlen - 1] == NEWLINE;
      assert buf[..datlen - 1] == datFile[datoff..datoff + |F.dat[datoff]|];
      datbuf := buf[..datlen - 1];
      data := datbuf;
    }

    /** _db_writedat */
    method WriteDat(data: CString, offset: nat, append: bool)
      requires IndexBytes(idxFile, F) && DataBytes(datFile, F)
      requires !append ==> offset in F.dat && |data| == |F.dat[offset]|
      modifies `datFile, `datoff, `datlen, `F
      ensures IndexBytes(idxFile, F) && DataBytes(datFile, F)
      ensures datoff == (if append then old(F).datEnd else offset) && datlen == |data| + 1
      ensures F == if append then AddData(old(F), data) else PutData(old(F), offset, data)
      ensures |datFile| == if append then |old(datFile)| + |data| + 1 else |old(datFile)|
    {
      datoff := if append then |datFile| else offset;
      datlen := |data| + 1;
      if append {
        AppendDataBytes(datFile, F, data);
        F := AddData(F, data);
      } else {
        WriteDataBytes(datFile, F, offset, data);
        F := PutData(F, offset, data);
      }
      assert append ==> datFile[..datoff] == datFile;
      datFile := PWrite(datFile, datoff, data + [NEWLINE]);
      IndexIgnoresData(idxFile, old(F), F);
    }

    // ---- Searching ----

    /** The handle describes element `pos` of list k, reached through the slot in front of it. */
    ghost predicate Located(k: nat, xs: seq<nat>, pos: nat)
      reads this
    {
      && pos < |xs| && idxoff == xs[pos] && ptroff == Node(k, xs, pos) && idxoff <= PTR_MAX
      && idxoff in F.recs && F.recs[idxoff] == Rec(ptrval, idxbuf, datoff, datlen) && ptrval <= PTR_MAX
    }

    /** The loop of _db_find_and_lock, starting at list head `ptroff`. */
    method SearchChain(key: CString, ghost k: nat, ghost xs: seq<nat>) returns (r: Result<nat>, ghost pos: nat)
      requires IndexBytes(idxFile, F) && Walkable(F, k, xs) && k < NLIST && ptroff == Slot(k)
      modifies `idxPos, `idxbuf, `idxoff, `datoff, `datlen, `ptrval, `ptroff
      ensures r.Aborted? ==> !CleanChain(F, xs)
      ensures |xs| > 0 && xs[0] in F.recs && SEP in F.recs[xs[0]].key ==> r.Aborted?
      ensures r == Done(0) ==> forall j :: 0 <= j < |xs| ==> xs[j] in F.recs && F.recs[xs[j]].key != key
      ensures r.Done? && r.value != 0 ==> Located(k, xs, pos) && idxbuf == key
    {
      pos := 0;
      var offset: nat := ReadPtr(ptroff);
      assert Node(k, xs, 0) == Slot(k);
      while offset != 0
        invariant pos <= |xs| && offset == Elem(xs, pos) <= PTR_MAX && ptroff == Node(k, xs, pos)
        invariant forall j :: 0 <= j < pos ==> xs[j] in F.recs && F.recs[xs[j]].key != key && SEP !in F.recs[xs[j]].key
        decreases |xs| - pos
      {
        assert Node(k, xs, pos + 1) == xs[pos] && xs[pos] in xs;
        ReadPtrBytes(idxFile, F, offset);
        var res := ReadIdx(offset);
        if res.Dump? { return Aborted, pos; }
        if idxbuf == key { return Done(offset), pos; }
        ptroff := offset;
        offset := ptrval;
        pos := pos + 1;
      }
      return Done(0), pos;
    }

    /** _db_find_and_lock: aborts exactly when a record of the chain has a separator in its key. */
    method FindAndLock(key: CString) returns (rc: Result<int>, ghost pos: nat)
      requires Valid()
      modifies `idxPos, `idxbuf, `idxoff, `datoff, `datlen, `ptrval, `ptroff, `chainoff
      ensures chainoff == Slot(1 + hash(key))
      ensures rc == if Stuck(hash, Entries, key) then Aborted else Done(if key in Entries then 0 else -1)
      ensures rc == Done(0) ==>
                |G.lists| == NLIST && Located(1 + hash(key), G.lists[1 + hash(key)], pos) && idxbuf == key
    {
      hide Meaning, IndexBytes, Walkable, CleanChain, Stuck;
      chainoff := Slot(1 + hash(key));
      ptroff := chainoff;
      ghost var k := 1 + hash(key);
      MeansWalkable(hash, idxFile, datFile, F, G, Entries, k);
      MeansReads(hash, idxFile, datFile, F, G, Entries, key);
      var r;
      r, pos := SearchChain(key, k, G.lists[k]);
      if r.Aborted? { return Aborted, pos; }
      rc := Done(if r.value == 0 then -1 else 0);
      MeansSearch(hash, idxFile, datFile, F, G, Entries, key, if r.value == 0 then None else Some(pos));
    }

    /** The loop of _db_findfree, starting at the head of the free list. */
    method SearchFree(keylen: nat, len: nat, ghost xs: seq<nat>) returns (offset: nat, ghost pos: nat)
      requires IndexBytes(idxFile, F) && Walkable(F, FREE, xs) && CleanChain(F, xs)
      modifies `idxPos, `idxbuf, `idxoff, `datoff, `datlen, `ptrval, `ptroff
      ensures offset == 0 ==> forall j :: 0 <= j < |xs| ==> !Suits(F, xs[j], keylen, len)
      ensures offset != 0 ==> Located(FREE, xs, pos) && |idxbuf| == keylen && datlen == len
      ensures offset != 0 ==> forall j :: 0 <= j < pos ==> !Suits(F, xs[j], keylen, len)
    {
      var saveoffset: nat := FREE;
      pos := 0;
      SlotIsSlot(F, FREE);
      offset := ReadPtr(saveoffset);
      assert Node(FREE, xs, 0) == Slot(FREE);
      while offset != 0
        invariant pos <= |xs| && offset == Elem(xs, pos) <= PTR_MAX && saveoffset == Node(FREE, xs, pos)
        invariant forall j :: 0 <= j < pos ==> !Suits(F, xs[j], keylen, len)
        decreases |xs| - pos
      {
        assert Node(FREE, xs, pos + 1) == xs[pos] && xs[pos] in xs;
        ReadPtrBytes(idxFile, F, offset);
        var r := ReadIdx(offset);
        if |idxbuf| == keylen && datlen == len {
          ptroff := saveoffset;
          return;
        }
        saveoffset := offset;
        offset := ptrval;
        pos := pos + 1;
      }
    }

    /** _db_findfree: a free record with a key and data of exactly these lengths, taken off the free list. */
    method FindFree(keylen: nat, len: nat) returns (rc: int)
      requires Valid()
      modifies `idxPos, `idxFile, `idxbuf, `idxoff, `datoff, `datlen, `ptrval, `ptroff, `F, `G
      ensures rc == 0 || rc == -1
      ensures |old(G).lists| == NLIST
      ensures rc == -1 <==> forall o :: o in old(G).lists[FREE] ==> !Suits(old(F), o, keylen, len)
      ensures rc == 0 ==> exists pos :: 0 <= pos < |old(G).lists[FREE]| && idxoff == old(G).lists[FREE][pos]
                            && forall j :: 0 <= j < pos ==> !Suits(old(F), old(G).lists[FREE][j], keylen, len)
      ensures rc == -1 ==> F == old(F) && G == old(G) && idxFile == old(idxFile)
      ensures |idxFile| == |old(idxFile)|
      ensures rc == 0 ==> Meaning(hash, idxFile, datFile, F, G, Entries).Some?
      ensures rc == 0 ==> OneLoose(G, idxoff) && idxoff <= PTR_MAX
      ensures rc == 0 ==> idxoff in F.recs && F.recs[idxoff] == Rec(ptrval, idxbuf, datoff, datlen)
                          && datlen == len && |idxbuf| == keylen
      ensures rc == 0 ==> |G.lists| == |old(G).lists|
      ensures rc == 0 ==> forall k :: 1 <= k < |G.lists| ==> G.lists[k] == old(G).lists[k]
    {
      hide Meaning, IndexBytes, Walkable, CleanChain, DataBytes;
      MeansWalkable(hash, idxFile, datFile, F, G, Entries, FREE);
      MeansReads(hash, idxFile, datFile, F, G, Entries, []);
      ghost var f, g, xs := F, G, G.lists[FREE];
      var offset;
      ghost var pos;
      offset, pos := SearchFree(keylen, len, xs);
      if offset == 0 { return -1; }
      assert Suits(f, xs[pos], keylen, len) && xs[pos] in xs;
      MeansTakeFree(hash, idxFile, datFile, f, g, Entries, pos);
      var ok := WritePtr(ptroff, ptrval);
      G := Unlinked(G, FREE, pos, 0);
      return 0;
    }

    // ---- Deleting ----

    method FillBlank(n: nat) returns (s: CString)
      ensures s == Blanks(n)
    {
      s := [];
      var i := 0;
      while i < n
        invariant i <= n && s == Blanks(i)
      {
        s, i := s + [SPACE], i + 1;
      }
    }

    /** The first writes of _db_dodelete: blank the data and the record, and aim the record at the free list. */
    method BlankWrites(o: nat) returns (saveptr: nat)
      requires IndexBytes(idxFile, F) && DataBytes(datFile, F)
      requires o in F.recs && o == idxoff && F.recs[o] == Rec(ptrval, idxbuf, datoff, datlen)
      requires datoff in F.dat && datlen == |F.dat[datoff]| + 1
      modifies `idxPos, `idxFile, `datFile, `idxbuf, `datbuf, `idxoff, `datoff, `datlen, `ptrval, `F
      ensures IndexBytes(idxFile, F) && DataBytes(datFile, F) && idxoff == o && saveptr == old(ptrval)
      ensures |idxFile| == |old(idxFile)| && |datFile| == |old(datFile)|
      ensures F == PutRec(PutData(old(F), old(datoff), Blanks(old(datlen) - 1)), o, BlankRec(old(F), o))
    {
      datbuf := FillBlank(datlen - 1);
      idxbuf := FillBlank(|idxbuf|);
      RecInLimits(idxFile, F, idxoff);
      WriteDat(datbuf, datoff, false);
      SlotIsSlot(F, FREE);
      var freeptr := ReadPtr(FREE);
      saveptr := ptrval;
      var ok := WriteIdx(idxbuf, idxoff, false, freeptr);
    }

    /** All writes of _db_dodelete. */
    method DeleteWrites(ghost k: nat, ghost xs: seq<nat>, ghost pos: nat)
      requires IndexBytes(idxFile, F) && DataBytes(datFile, F) && Located(k, xs, pos) && Deletable(F, k, xs, pos)
      modifies `idxPos, `idxFile, `datFile, `idxbuf, `datbuf, `idxoff, `datoff, `datlen, `ptrval, `F
      ensures IndexBytes(idxFile, F) && DataBytes(datFile, F) && F == Deleted(old(F), k, xs, pos)
      ensures idxoff == old(idxoff) && |idxFile| == |old(idxFile)| && |datFile| == |old(datFile)|
    {
      var saveptr := BlankWrites(idxoff);
      SlotIsSlot(F, FREE);
      var ok := WritePtr(FREE, idxoff);
      ok := WritePtr(ptroff, saveptr);
    }

    /** _db_dodelete */
    method DoDelete(ghost key: CString, ghost pos: nat)
      requires Valid() && |G.lists| == NLIST && Located(1 + hash(key), G.lists[1 + hash(key)], pos) && idxbuf == key
      modifies `idxPos, `idxFile, `datFile, `idxbuf, `datbuf, `idxoff, `datoff, `datlen, `ptrval, `F, `G, `Entries
      ensures Valid() && Entries == old(Entries) - {key}
      ensures |idxFile| == |old(idxFile)| && |datFile| == |old(datFile)|
    {
      ghost var f, g, k := F, G, 1 + hash(key);
      ghost var xs := g.lists[k];
      MeansDelete(hash, idxFile, datFile, f, g, Entries, k, pos);
      DeleteWrites(k, xs, pos);
      G := Pushed(Unlinked(G, k, pos, 0), FREE, idxoff);
      Entries := Entries - {key};
    }

    // ---- The calls ----

    /** db_fetch */
    method Fetch(key: CString) returns (r: Result<Option<CString>>)
      requires Valid()
      modifies this
      ensures Valid() && Entries == old(Entries) && idxFile == old(idxFile) && datFile == old(datFile)
      ensures r.Aborted? <==> Stuck(hash, Entries, key)
      ensures r.Done? ==> r.value == if key in Entries then Some(Entries[key]) else None
    {
      ghost var pos;
      var rc;
      rc, pos := FindAndLock(key);
      if rc.Aborted? { return Aborted; }
      if rc.value < 0 { return Done(None); }
      MeansFound(hash, idxFile, datFile, F, G, Entries, 1 + hash(key), pos);
      var data := ReadDat();
      return Done(Some(data));
    }

    /** db_delete */
    method Delete(key: CString) returns (r: Result<int>)
      requires Valid()
      modifies this
      ensures r.Aborted? <==> Stuck(hash, old(Entries), key)
      ensures Valid() && Entries == if r.Done? then old(Entries) - {key} else old(Entries)
      ensures r.Done? ==> r.value == if key in old(Entries) then 0 else -1
      ensures |idxFile| == |old(idxFile)| && |datFile| == |old(datFile)|
    {
      ghost var pos;
      r, pos := FindAndLock(key);
      if r == Done(0) { DoDelete(key, pos); }
    }

    /** Append a new record and put it at the front of its chain; false is an abort. */
    method AppendWrites(key: CString, data: CString, ptr: nat, ghost k: nat) returns (ok: bool)
      requires IndexBytes(idxFile, F) && DataBytes(datFile, F)
      requires 0 < |data| + 1 <= DATLEN_MAX && k < NLIST && chainoff == Slot(k) && ptr == PtrAt(F, Slot(k))
      modifies `idxPos, `idxFile, `datFile, `idxbuf, `idxoff, `datoff, `datlen, `ptrval, `F
      ensures ok ==> IndexBytes(idxFile, F) && DataBytes(datFile, F) && F == Inserted(old(F), k, key, data)
      ensures ptr <= PTR_MAX && Fits(|old(idxFile)|, |old(datFile)|, key, data) ==> ok
      ensures ok ==> |idxFile| == |old(idxFile)| + RecSize(Rec(0, key, |old(datFile)|, |data| + 1))
      ensures ok ==> |datFile| == |old(datFile)| + |data| + 1
      ensures ok ==> |idxFile| <= |old(idxFile)| + REC_MAX && |datFile| <= |old(datFile)| + DATLEN_MAX
    {
      WriteDat(data, 0, true);
      ok := WriteIdx(key, 0, true, ptr);
      if !ok { return; }
      SlotIsSlot(F, k);
      ok := WritePtr(chainoff, idxoff);
    }

    /** Rewrite a record taken from the free list and put it at the front of its chain. */
    method ReuseWrites(key: CString, data: CString, ptr: nat, ghost k: nat)
      requires IndexBytes(idxFile, F) && DataBytes(datFile, F)
      requires 0 < |data| + 1 <= DATLEN_MAX && k < NLIST && chainoff == Slot(k) && ptr <= PTR_MAX
      requires idxoff in F.recs && idxoff <= PTR_MAX && F.recs[idxoff] == Rec(ptrval, idxbuf, datoff, datlen)
      requires |idxbuf| == |key| && datlen == |data| + 1 && datoff in F.dat && |F.dat[datoff]| == |data|
      modifies `idxPos, `idxFile, `datFile, `idxbuf, `idxoff, `datoff, `datlen, `ptrval, `F
      ensures IndexBytes(idxFile, F) && DataBytes(datFile, F)
      ensures F == Reused(old(F), k, old(idxoff), Rec(ptr, key, old(datoff), |data| + 1), data)
      ensures |idxFile| == |old(idxFile)| && |datFile| == |old(datFile)|
    {
      RecInLimits(idxFile, F, idxoff);
      WriteDat(data, datoff, false);
      var ok := WriteIdx(key, idxoff, false, ptr);
      SlotIsSlot(F, k);
      ok := WritePtr(chainoff, idxoff);
    }

    /** The paths of db_store that append: no free record fits, or the old record had another length. */
    method StoreByAppend(key: CString, data: CString) returns (r: Result<int>)
      requires Valid() && key !in Entries && !Stuck(hash, Entries, key) && 0 < |data| + 1 <= DATLEN_MAX
      requires chainoff == Slot(1 + hash(key))
      modifies `idxPos, `idxFile, `datFile, `idxbuf, `idxoff, `datoff, `datlen, `ptrval, `F, `G, `Entries
      ensures r.Done? ==> r.value == 0 && Valid() && Entries == old(Entries)[key := data]
      ensures Fits(|old(idxFile)|, |old(datFile)|, key, data) ==> r.Done?
      ensures r.Done? ==> |idxFile| == |old(idxFile)| + RecSize(Rec(0, key, |old(datFile)|, |data| + 1))
      ensures r.Done? ==> |datFile| == |old(datFile)| + |data| + 1
      ensures r.Done? ==> |idxFile| <= |old(idxFile)| + REC_MAX && |datFile| <= |old(datFile)| + DATLEN_MAX
    {
      ghost var f, g, k := F, G, 1 + hash(key);
      SlotIsSlot(F, k);
      MeansReads(hash, idxFile, datFile, f, g, Entries, key);
      MeansInsert(hash, idxFile, datFile, f, g, Entries, k, key, data);
      var ptr := ReadPtr(chainoff);
      var ok := AppendWrites(key, data, ptr, k);
      if !ok { return Aborted; }
      G := InsertedShape(f, g, k);
      Entries := Entries[key := data];
      return Done(0);
    }

    /** The path of db_store that reuses the free record just taken. */
    method StoreByReuse(key: CString, data: CString, ptr: nat)
      requires Meaning(hash, idxFile, datFile, F, G, Entries).Some? && OneLoose(G, idxoff) && key !in Entries
      requires |G.lists| == NLIST && InTable(hash) && !Stuck(hash, Entries, key)
      requires 0 < |data| + 1 <= DATLEN_MAX && chainoff == Slot(1 + hash(key))
      requires ptr <= PTR_MAX && ptr == Elem(G.lists[1 + hash(key)], 0)
      requires idxoff in F.recs && idxoff <= PTR_MAX && F.recs[idxoff] == Rec(ptrval, idxbuf, datoff, datlen)
      requires |idxbuf| == |key| && datlen == |data| + 1
      modifies `idxPos, `idxFile, `datFile, `idxbuf, `idxoff, `datoff, `datlen, `ptrval, `F, `G, `Entries
      ensures Valid() && Entries == old(Entries)[key := data]
      ensures |idxFile| == |old(idxFile)| && |datFile| == |old(datFile)|
    {
      ghost var f, g, k, o := F, G, 1 + hash(key), idxoff;
      ghost var r := Rec(ptr, key, datoff, |data| + 1);
      MeansReads(hash, idxFile, datFile, f, g, Entries, key);
      MeansReuse(hash, idxFile, datFile, f, g, Entries, k, o, r, data);
      ReuseWrites(key, data, ptr, k);
      G := Pushed(g, k, o);
      Entries := Entries[key := data];
    }

    /** The path of db_store for a key that is not there: reuse a free record, or append. */
    method StoreNew(key: CString, data: CString) returns (r: Result<int>)
      requires Valid() && key !in Entries && !Stuck(hash, Entries, key) && 0 < |data| + 1 <= DATLEN_MAX
      requires chainoff == Slot(1 + hash(key))
      modifies `idxPos, `idxFile, `datFile, `idxbuf, `idxoff, `datoff, `datlen, `ptrval, `ptroff, `F, `G, `Entries
      ensures r.Done? ==> r.value == 0 && Valid() && Entries == old(Entries)[key := data]
      ensures Fits(|old(idxFile)|, |old(datFile)|, key, data) ==> r.Done?
      ensures |old(G).lists| == NLIST
      ensures r.Done? ==>
                var grows := forall o :: o in old(G).lists[FREE] ==> !Suits(old(F), o, |key|, |data| + 1);
                GrownBy(old(idxFile), old(datFile), idxFile, datFile, key, data, grows)
      ensures r.Done? ==> |idxFile| <= |old(idxFile)| + REC_MAX && |datFile| <= |old(datFile)| + DATLEN_MAX
    {
      SlotIsSlot(F, 1 + hash(key));
      MeansWalkable(hash, idxFile, datFile, F, G, Entries, 1 + hash(key));
      var ptr := ReadPtr(chainoff);
      var rc := FindFree(|key|, |data| + 1);
      if rc < 0 {
        r := StoreByAppend(key, data);
      } else {
        StoreByReuse(key, data, ptr);
        r := Done(0);
      }
    }

    /** The path of db_store for a key that was found. */
    method StoreOver(key: CString, data: CString, flag: Flag, ghost pos: nat) returns (r: Result<int>)
      requires Valid() && key in Entries && !Stuck(hash, Entries, key) && 0 < |data| + 1 <= DATLEN_MAX
      requires chainoff == Slot(1 + hash(key))
      requires |G.lists| == NLIST && Located(1 + hash(key), G.lists[1 + hash(key)], pos) && idxbuf == key
      modifies `idxPos, `idxFile, `datFile, `idxbuf, `datbuf, `idxoff, `datoff, `datlen, `ptrval, `F, `G, `Entries
      ensures flag == DbInsert ==> r == Done(1) && Valid() && Entries == old(Entries)
      ensures flag != DbInsert && r.Done? ==> r.value == 0 && Valid() && Entries == old(Entries)[key := data]
      ensures Fits(|old(idxFile)|, |old(datFile)|, key, data) ==> r.Done?
      ensures r.Done? ==>
                var grows := flag != DbInsert && |data| != |old(Entries)[key]|;
                GrownBy(old(idxFile), old(datFile), idxFile, datFile, key, data, grows)
      ensures r.Done? ==> |idxFile| <= |old(idxFile)| + REC_MAX && |datFile| <= |old(datFile)| + DATLEN_MAX
    {
      hide Good, Meaning;
      MeansFound(hash, idxFile, datFile, F, G, Entries, 1 + hash(key), pos);
      if flag == DbInsert {
        r := Done(1);
      } else if |data| + 1 != datlen {
        DoDelete(key, pos);
        assert Entries[key := data] == old(Entries)[key := data];
        r := StoreByAppend(key, data);
      } else {
        MeansOverwrite(hash, idxFile, datFile, F, G, Entries, 1 + hash(key), pos, data);
        WriteDat(data, datoff, false);
        Entries := Entries[key := data];
        r := Done(0);
      }
    }

    /** db_store. The key may be any string. */
    method Store(key: CString, data: CString, flag: Flag) returns (r: Result<int>)
      requires Valid()
      modifies this
      ensures r.Done? ==> Valid() && (r.value, Entries) == MapStore(old(Entries), key, data, flag)
      ensures r.Done? ==>
                (r.value == 0 <==> flag != BadFlag && (flag == DbInsert ==> key !in old(Entries))
                                   && (flag == DbReplace ==> key in old(Entries)))
      ensures r.Done? ==> (r.value == 1 <==> flag == DbInsert && key in old(Entries)) && -1 <= r.value <= 1
      ensures r.Done? ==> Entries == if r.value == 0 then old(Entries)[key := data] else old(Entries)
      ensures flag != BadFlag && Stuck(hash, old(Entries), key) ==> r.Aborted?
      ensures flag == BadFlag ==> r.Done?
      ensures flag != BadFlag && !(DATLEN_MIN <= |data| + 1 <= DATLEN_MAX) ==> r.Aborted?
      ensures !Stuck(hash, old(Entries), key) && Fits(|old(idxFile)|, |old(datFile)|, key, data) ==> r.Done?
      ensures |old(G).lists| == NLIST
      ensures r.Done? ==>
                var grows := r.value == 0 && if key in old(Entries) then |data| != |old(Entries)[key]|
                             else forall o :: o in old(G).lists[FREE] ==> !Suits(old(F), o, |key|, |data| + 1);
                GrownBy(old(idxFile), old(datFile), idxFile, datFile, key, data, grows)
      ensures r.Done? ==> |idxFile| <= |old(idxFile)| + REC_MAX && |datFile| <= |old(datFile)| + DATLEN_MAX
    {
      if flag == BadFlag { return Done(-1); }
      var len := |data| + 1;
      if len < DATLEN_MIN || len > DATLEN_MAX { return Aborted; }
      ghost var pos;
      var rc;
      rc, pos := FindAndLock(key);
      if rc.Aborted? { return Aborted; }
      if rc.value == 0 {
        r := StoreOver(key, data, flag, pos);
      } else if flag == DbReplace {
        r := Done(-1);
      } else {
        r := StoreNew(key, data);
      }
    }

    // ---- The sequential scan ----

    /** db_rewind */
    method Rewind()
      requires Valid()
      modifies `idxPos, `idxoff
      ensures idxPos == FIRST_REC && AtRecord(F, idxPos)
    {
      MeansBytes(hash, idxFile, datFile, F, G, Entries);
      var offset := NLIST * PTR_SZ;
      idxoff := offset + 1;
      idxPos := idxoff;
    }

    /** Whether a key consists of blanks only: the loop of db_nextrec. */
    method IsBlank(key: CString) returns (b: bool)
      ensures b <==> AllBlank(key)
    {
      var i := 0;
      while i < |key| && key[i] == SPACE
        invariant i <= |key| && forall j :: 0 <= j < i ==> key[j] == SPACE
      {
        i := i + 1;
      }
      b := i == |key|;
      if !b { assert key[i] in key; }
    }

    /** db_nextrec: aborts at a record with a separator in its key. */
    method NextRec() returns (r: Result<Option<(CString, CString)>>)
      requires Valid() && AtRecord(F, idxPos)
      modifies `idxPos, `idxbuf, `datbuf, `idxoff, `datoff, `datlen, `ptrval
      ensures old(idxPos) <= idxoff && (r.Done? ==> AtRecord(F, idxPos))
      ensures match r
              case Aborted => idxoff in F.recs && SEP in F.recs[idxoff].key && BlankBetween(F, old(idxPos), idxoff)
              case Done(None) => idxPos == F.idxEnd && BlankBetween(F, old(idxPos), F.idxEnd)
              case Done(Some((key, data))) =>
                && idxoff in F.recs && F.recs[idxoff].key == key && SEP !in key && !AllBlank(key)
                && F.recs[idxoff].datoff in F.dat && F.dat[F.recs[idxoff].datoff] == data
                && BlankBetween(F, old(idxPos), idxoff)
                && idxPos == End(F, idxoff) <= F.idxEnd
    {
      hide IndexBytes, DataBytes, Meaning, Tiled, RecSize, AllBlank, InLimits;
      MeansBytes(hash, idxFile, datFile, F, G, Entries);
      idxoff := idxPos;
      var blank := true;
      while blank
        invariant AtRecord(F, idxPos) && old(idxPos) <= idxoff
        invariant blank ==> old(idxPos) <= idxPos && BlankBetween(F, old(idxPos), idxPos)
        invariant !blank ==> idxoff in F.recs && idxPos == End(F, idxoff) <= F.idxEnd
        invariant !blank ==>
                  F.recs[idxoff] == Rec(ptrval, idxbuf, datoff, datlen) && !AllBlank(idxbuf) && SEP !in idxbuf
        invariant !blank ==> BlankBetween(F, old(idxPos), idxoff)
        decreases if blank then 1 else 0, F.idxEnd - idxPos
      {
        ghost var at := idxPos;
        AtRecordNext(F, at);
        var res := ReadIdx(0);
        if res.Dump? { return Aborted; }
        if res.Eof? { return Done(None); }
        blank := IsBlank(idxbuf);
        BlankStep(F, old(idxPos), at);
      }
      MeansExtent(hash, idxFile, datFile, F, G, Entries, idxoff);
      var data := ReadDat();
      return Done(Some((idxbuf, data)));
    }

    /** db_nextrec until it finds nothing. */
    method NextRecs() returns (r: Result<seq<(CString, CString)>>, ghost places: seq<nat>)
      requires Valid() && IndexBytes(idxFile, F) && idxPos == FIRST_REC && AtRecord(F, idxPos)
      modifies `idxPos, `idxbuf, `datbuf, `idxoff, `datoff, `datlen, `ptrval
      ensures r.Aborted? ==> idxoff in F.recs && SEP in F.recs[idxoff].key
      ensures r.Done? ==> Scanned(F, F.idxEnd, r.value, places)
      ensures r.Done? ==> forall i :: 0 <= i < |r.value| ==> SEP !in r.value[i].0
    {
      ScannedStart(F);
      hide IndexBytes, Meaning, Scanned, BlankBetween, AllBlank;
      assert Tiled(F) by { TiledBytes(idxFile, F); }
      var rows: seq<(CString, CString)> := [];
      places := [];
      var more := true;
      while more
        invariant AtRecord(F, idxPos)
        invariant Scanned(F, if more then idxPos else F.idxEnd, rows, places)
        invariant forall i :: 0 <= i < |rows| ==> SEP !in rows[i].0
        decreases if more then 1 else 0, F.idxEnd - idxPos
      {
        ghost var at := idxPos;
        AtRecordNext(F, at);
        var next := NextRec();
        match next {
          case Aborted => return Aborted, places;
          case Done(None) =>
            ScannedEnd(F, at, rows, places);
            more := false;
          case Done(Some(row)) =>
            ScannedStep(F, at, rows, places, idxoff, row);
            rows, places := rows + [row], places + [idxoff];
        }
      }
      return Done(rows), places;
    }

    /** A whole scan: rewind, then all records in turn. It aborts exactly when some key in the database has a
        separator. */
    method Scan() returns (r: Result<seq<(CString, CString)>>, ghost places: seq<nat>)
      requires Valid()
      modifies `idxPos, `idxbuf, `datbuf, `idxoff, `datoff, `datlen, `ptrval
      ensures Valid()
      ensures r.Aborted? <==> exists d :: d in Entries && SEP in d
      ensures r.Done? ==> forall key, data ::
                (key, data) in r.value <==> key in Entries && Entries[key] == data && !AllBlank(key)
      ensures r.Done? ==> forall i, j :: 0 <= i < j < |r.value| ==> r.value[i].0 != r.value[j].0
      ensures r.Done? ==> |places| == |r.value| && forall i, j :: 0 <= i < j < |places| ==> places[i] < places[j]
      ensures r.Done? ==>
                forall i :: 0 <= i < |places| ==> places[i] in F.recs && F.recs[places[i]].key == r.value[i].0
    {
      Rewind();
      MeansBytes(hash, idxFile, datFile, F, G, Entries);
      MeansDirty(hash, idxFile, datFile, F, G, Entries);
      r, places := NextRecs();
      if r.Done? {
        ScannedClean(F, r.value, places);
        ScannedPlaces(F, F.idxEnd, r.value, places);
        MeansScan(hash, idxFile, datFile, F, G, Entries, r.value, places);
        hide Scanned, AllBlank, IndexBytes, DataBytes, Tiled;
      }
    }
  }
}
