/**
 The same runs in bytes: while no limit is reached, each step writes to the two files just what the library writes,
 and the bytes stay those of the linked records. So what the other modules say of records holds of the files.
 */
module DbRunBytes {
  import opened Options
  import opened Seals
  import opened CText
  import opened DbFormat
  import opened DbFiles
  import opened DbEffects
  import opened DbBytes
  import opened DbSpec
  import opened DbProcesses
  import opened DbInvariant
  import opened DbSteps
  import opened DbSearchSteps
  import opened DbLockSteps
  import opened DbWriteSteps
  import opened DbDeleteSteps
  import opened DbMoves
  import opened DbInterleaving

  /** What a step writes: nothing, or some bytes at an offset of the index or the data file. */
  datatype Write = NoWrite | ToIdx(off: nat, bytes: seq<Byte>) | ToDat(off: nat, bytes: seq<Byte>)

  /** The checks of db_store, _db_writeidx and _db_writeptr that come before the process's next write. */
  predicate Passes(me: Proc) {
    && (me.op.StoreOp? ==> |DataOf(me.op)| + 1 <= DATLEN_MAX && SEP !in KeyOf(me.op))
    && match me.pc
       case FreeTake | DelUnlink => me.rec.ptr <= PTR_MAX
       case LinkHead | DelFreeHead => me.off <= PTR_MAX
       case ReuseRec => Writable(StoredRec(me))
       case AppIdx => Writable(NewRec(me))
       case DelRec => Writable(BlankedRec(me))
       case _ => true
  }

  function WriteOf(hash: Hasher, f: Files, me: Proc): Write
    requires Passes(me)
  {
    match me.pc
    case FreeTake | DelUnlink => ToIdx(me.ptroff, PtrField(me.rec.ptr))
    case ReuseRec => ToIdx(me.off, EncodeRec(StoredRec(me)))
    case AppIdx => ToIdx(f.idxEnd, EncodeRec(NewRec(me)))
    case LinkHead => ToIdx(Slot(1 + ChainOf(hash, me.op)), PtrField(me.off))
    case DelRec => ToIdx(me.off, EncodeRec(BlankedRec(me)))
    case DelFreeHead => ToIdx(Slot(FREE), PtrField(me.off))
    case ReuseData | Overwrite => ToDat(me.rec.datoff, DataOf(me.op) + [NEWLINE])
    case AppDat => ToDat(f.datEnd, DataOf(me.op) + [NEWLINE])
    case DelData => ToDat(me.rec.datoff, Blanks(if me.rec.datlen == 0 then 0 else me.rec.datlen - 1) + [NEWLINE])
    case _ => NoWrite
  }

  ghost predicate CleanKeys(f: Files) { forall o :: o in f.recs ==> SEP !in f.recs[o].key }

  /** The bytes stand for the records, and no key has a separator. */
  ghost predicate Bytes(f: Files, idx: seq<Byte>, dat: seq<Byte>) {
    IndexBytes(idx, f) && DataBytes(dat, f) && CleanKeys(f)
  }

  /** After that write the bytes are those of f'. */
  ghost predicate Follows(w: Write, idx: seq<Byte>, dat: seq<Byte>, f': Files) {
    match w
    case NoWrite => Bytes(f', idx, dat)
    case ToIdx(off, bytes) => off <= |idx| && Bytes(f', PWrite(idx, off, bytes), dat)
    case ToDat(off, bytes) => off <= |dat| && Bytes(f', idx, PWrite(dat, off, bytes))
  }

  lemma PtrFollows(f: Files, idx: seq<Byte>, dat: seq<Byte>, slot: nat, v: nat)
    requires Bytes(f, idx, dat) && IsSlot(f, slot) && v <= PTR_MAX
    ensures Follows(ToIdx(slot, PtrField(v)), idx, dat, SetPtr(f, slot, v))
  {
    WritePtrBytes(idx, f, slot, v);
    DataIgnoresIndex(dat, f, SetPtr(f, slot, v));
    assert CleanKeys(SetPtr(f, slot, v)) by {
      forall o | o in f.recs ensures SetPtr(f, slot, v).recs[o].key == f.recs[o].key { SetPtrKeeps(f, slot, v, o); }
    }
    hide IndexBytes, DataBytes, SetPtr, CleanKeys;
  }

  lemma RecFollows(f: Files, idx: seq<Byte>, dat: seq<Byte>, o: nat, r: Rec)
    requires Bytes(f, idx, dat) && o in f.recs && InLimits(r) && SEP !in r.key && RecSize(r) == RecSize(f.recs[o])
    ensures Follows(ToIdx(o, EncodeRec(r)), idx, dat, PutRec(f, o, r))
  {
    WriteRecBytes(idx, f, o, r);
    DataIgnoresIndex(dat, f, PutRec(f, o, r));
  }

  lemma NewRecFollows(f: Files, idx: seq<Byte>, dat: seq<Byte>, r: Rec)
    requires Bytes(f, idx, dat) && InLimits(r) && SEP !in r.key
    ensures Follows(ToIdx(f.idxEnd, EncodeRec(r)), idx, dat, AddRec(f, r))
  {
    AppendRecBytes(idx, f, r);
    assert |EncodeRec(r)| > 0 && idx[..|idx|] == idx;
    DataIgnoresIndex(dat, f, AddRec(f, r));
  }

  lemma DataFollows(f: Files, idx: seq<Byte>, dat: seq<Byte>, a: nat, data: CString)
    requires Bytes(f, idx, dat) && a in f.dat && |data| == |f.dat[a]|
    ensures Follows(ToDat(a, data + [NEWLINE]), idx, dat, PutData(f, a, data))
  {
    WriteDataBytes(dat, f, a, data);
    IndexIgnoresData(idx, f, PutData(f, a, data));
  }

  lemma NewDataFollows(f: Files, idx: seq<Byte>, dat: seq<Byte>, data: CString)
    requires Bytes(f, idx, dat)
    ensures Follows(ToDat(f.datEnd, data + [NEWLINE]), idx, dat, AddData(f, data))
  {
    AppendDataBytes(dat, f, data);
    assert dat[..|dat|] == dat;
    IndexIgnoresData(idx, f, AddData(f, data));
  }

  // ---- What is written is where it should be ----

  lemma SlotsInPlace(hash: Hasher, s: Sys, p: nat)
    requires InOrder(hash, s) && p < |s.procs|
    ensures s.procs[p].pc in {FreeTake, DelUnlink} ==> IsSlot(s.files, s.procs[p].ptroff)
    ensures IsSlot(s.files, Slot(FREE))
    ensures 1 + ChainOf(hash, s.procs[p].op) < NLIST && IsSlot(s.files, Slot(1 + ChainOf(hash, s.procs[p].op)))
  {
    hide StandingOf, Logical, SetPtr;
    var t, me := Logical(s), s.procs[p];
    BridgedSame(s);
    SlotIsSlot(s.files, FREE);
    Knows(hash, t, p);
    SlotIsSlot(s.files, 1 + ChainOf(hash, me.op));
    PartitionFact(hash, t);
    match me.pc
    case FreeTake => NodePlaced(t.files, t.g, FREE, me.pos); SlotIsSlot(s.files, FREE);
    case DelUnlink => NodePlaced(t.files, t.g, 1 + ChainOf(hash, me.op), me.pos);
    case _ =>
  }

  /** The record whose data is written is the one in the process's registers. */
  lemma RecordInHand(hash: Hasher, s: Sys, p: nat)
    requires StandingOf(hash, s) == Firm && p < |s.procs| && s.procs[p].pc in {ReuseData, Overwrite, DelData}
    ensures var me := s.procs[p];
            && me.off in s.files.recs && s.files.recs[me.off].datoff == me.rec.datoff
            && s.files.recs[me.off].datlen == me.rec.datlen
            && (me.pc != DelData ==> me.rec.datlen == |DataOf(me.op)| + 1)
  {
    hide StandingOf;
    Knows(hash, s, p);
  }

  lemma DataInPlace(hash: Hasher, s: Sys, p: nat)
    requires InOrder(hash, s) && p < |s.procs| && s.procs[p].pc in {ReuseData, Overwrite, DelData}
    ensures var me := s.procs[p];
            me.rec.datoff in s.files.dat && me.rec.datlen == |s.files.dat[me.rec.datoff]| + 1
            && (me.pc != DelData ==> me.rec.datlen == |DataOf(me.op)| + 1)
  {
    hide StandingOf, Logical, SetPtr;
    BridgedSame(s);
    HeldFact(hash, Logical(s));
    RecordInHand(hash, Logical(s), p);
  }

  lemma RecInPlace(hash: Hasher, s: Sys, p: nat)
    requires InOrder(hash, s) && p < |s.procs| && s.procs[p].pc in {ReuseRec, DelRec}
    ensures var me := s.procs[p];
            && me.off in s.files.recs
            && me.rec.datlen == s.files.recs[me.off].datlen && me.rec.datoff == s.files.recs[me.off].datoff
            && (me.pc == ReuseRec ==>
                  && me.op.StoreOp? && |s.files.recs[me.off].key| == |KeyOf(me.op)|
                  && me.rec.datlen == |DataOf(me.op)| + 1)
            && (me.pc == DelRec ==> me.rec.key == s.files.recs[me.off].key)
  {
    hide StandingOf;
    Knows(hash, Logical(s), p);
    match Cutter(s)
    case Some(q) =>
      if s.procs[p].off in s.files.recs {
        SetPtrKeeps(s.files, s.procs[q].ptroff, s.procs[q].rec.ptr, s.procs[p].off);
      }
    case None =>
  }

  // ---- Every step ----

  function FilesAfter(hash: Hasher, f: Files, me: Proc): Files {
    match me.pc
    case FreeTake | DelUnlink => SetPtr(f, me.ptroff, me.rec.ptr)
    case ReuseRec => PutRec(f, me.off, StoredRec(me))
    case AppIdx => AddRec(f, NewRec(me))
    case LinkHead => SetPtr(f, Slot(1 + ChainOf(hash, me.op)), me.off)
    case DelRec => PutRec(f, me.off, BlankedRec(me))
    case DelFreeHead => SetPtr(f, Slot(FREE), me.off)
    case ReuseData | Overwrite => PutData(f, me.rec.datoff, DataOf(me.op))
    case AppDat => AddData(f, DataOf(me.op))
    case DelData => PutData(f, me.rec.datoff, Blanks(if me.rec.datlen == 0 then 0 else me.rec.datlen - 1))
    case _ => f
  }

  lemma StepFiles(hash: Hasher, s: Sys, p: nat)
    requires p < |s.procs| && Enabled(hash, s, p)
    ensures Step(hash, s, p).files == FilesAfter(hash, s.files, s.procs[p])
  {
    hide SetPtr, PutRec, AddRec, PutData, AddData, Blanks, ChainOf, DataOf, AfterLook, AfterFree, AfterScan,
         AfterDelete;
    hide Unlinked, Pushed, DataAdded, RecAdded, ChainLock, MapAfter;
  }

  /** As long, and with the same data extent. */
  predicate SameLengths(r: Rec, r': Rec) {
    |r'.key| == |r.key| && r'.datoff == r.datoff && r'.datlen == r.datlen
  }

  /** No step moves a record, or changes the length of its key or its data extent. So a reader that takes the length of
      a record with one call and its body with the next finds all of a body, even if another process has rewritten the
      record in between. */
  lemma SizesStay(hash: Hasher, s: Sys, p: nat, o: nat)
    requires InOrder(hash, s) && p < |s.procs| && Enabled(hash, s, p) && o in s.files.recs
    ensures var f' := Step(hash, s, p).files;
            o in f'.recs && SameLengths(s.files.recs[o], f'.recs[o])
  {
    StepFiles(hash, s, p);
    hide Step, InOrder, Enabled, RecSize, SetPtr, Blanks, ChainOf, KeyOf, DataOf;
    var f, me := s.files, s.procs[p];
    match me.pc
    case FreeTake | DelUnlink => SetPtrKeeps(f, me.ptroff, me.rec.ptr, o);
    case LinkHead => SetPtrKeeps(f, Slot(1 + ChainOf(hash, me.op)), me.off, o);
    case DelFreeHead => SetPtrKeeps(f, Slot(FREE), me.off, o);
    case ReuseRec | DelRec => RewriteSizes(hash, s, p);
    case AppIdx => EndIsNew(hash, s);
    case _ =>
  }

  lemma RewriteSizes(hash: Hasher, s: Sys, p: nat)
    requires InOrder(hash, s) && p < |s.procs| && s.procs[p].pc in {ReuseRec, DelRec}
    ensures var (f, me) := (s.files, s.procs[p]);
            me.off in f.recs && SameLengths(f.recs[me.off], FilesAfter(hash, f, me).recs[me.off])
  {
    hide InOrder;
    RecInPlace(hash, s, p);
  }

  lemma EndBehind(f: Files)
    requires Tiled(f)
    ensures forall o :: o in f.recs ==> o < f.idxEnd
  {
    forall o | o in f.recs ensures o < f.idxEnd { assert End(f, o) <= f.idxEnd; }
  }

  lemma EndIsNew(hash: Hasher, s: Sys)
    requires InOrder(hash, s)
    ensures s.files.idxEnd !in s.files.recs
  {
    hide InOrder, DataHeld;
    FilesWellFormed(hash, s);
    EndBehind(s.files);
  }

  lemma StepAt(hash: Hasher, n: nat, run: seq<Sys>, i: nat)
    requires InTable(hash) && Run(hash, n, run) && 0 < i < |run|
    ensures InOrder(hash, run[i - 1]) && Next(hash, run[i - 1], run[i])
  {
    hide InOrder, Next;
    RunInOrder(hash, n, run, i - 1);
    assert NextAt(hash, run, i);
  }

  lemma {:induction false} SizesStayOn(hash: Hasher, n: nat, run: seq<Sys>, i: nat, j: nat, o: nat)
    requires InTable(hash) && Run(hash, n, run) && i <= j < |run| && o in run[i].files.recs
    ensures o in run[j].files.recs && SameLengths(run[i].files.recs[o], run[j].files.recs[o])
    ensures RecSize(run[j].files.recs[o]) == RecSize(run[i].files.recs[o])
    decreases j
  {
    if i < j {
      hide InOrder, Next, RecSize, Run, InTable;
      SizesStayOn(hash, n, run, i, j - 1, o);
      StepAt(hash, n, run, j);
      OneStepSizes(hash, run[j - 1], run[j], o);
    }
  }

  lemma OneStepSizes(hash: Hasher, s: Sys, s': Sys, o: nat)
    requires InOrder(hash, s) && Next(hash, s, s') && o in s.files.recs
    ensures o in s'.files.recs && SameLengths(s.files.recs[o], s'.files.recs[o])
  {
    hide InOrder, Step;
    var p: nat :| p < |s.procs| && NextOf(hash, s, s', p);
    if Enabled(hash, s, p) && s' == Step(hash, s, p) { SizesStay(hash, s, p, o); }
  }

  /** One step of one process writes at most one stretch of one file, and the bytes are then those of the new
      records. */
  lemma BytesFollow(hash: Hasher, s: Sys, p: nat, idx: seq<Byte>, dat: seq<Byte>)
    requires InOrder(hash, s) && p < |s.procs| && Enabled(hash, s, p) && Passes(s.procs[p])
    requires Bytes(s.files, idx, dat)
    ensures Follows(WriteOf(hash, s.files, s.procs[p]), idx, dat, Step(hash, s, p).files)
  {
    StepFiles(hash, s, p);
    hide Step, InOrder, Bytes, Follows;
    var f, me := s.files, s.procs[p];
    match me.pc
    case FreeTake | DelUnlink =>
      SlotsInPlace(hash, s, p);
      PtrFollows(f, idx, dat, me.ptroff, me.rec.ptr);
    case LinkHead =>
      SlotsInPlace(hash, s, p);
      PtrFollows(f, idx, dat, Slot(1 + ChainOf(hash, me.op)), me.off);
    case DelFreeHead =>
      SlotsInPlace(hash, s, p);
      PtrFollows(f, idx, dat, Slot(FREE), me.off);
    case ReuseRec | DelRec => RewriteFollows(hash, s, p, idx, dat);
    case AppIdx => AppendFollows(hash, s, p, idx, dat);
    case ReuseData | Overwrite =>
      DataInPlace(hash, s, p);
      DataFollows(f, idx, dat, me.rec.datoff, DataOf(me.op));
    case DelData =>
      DataInPlace(hash, s, p);
      DataFollows(f, idx, dat, me.rec.datoff, Blanks(me.rec.datlen - 1));
    case AppDat => NewDataFollows(f, idx, dat, DataOf(me.op));
    case _ => SameFollows(f, idx, dat);
  }

  lemma SameFollows(f: Files, idx: seq<Byte>, dat: seq<Byte>)
    requires Bytes(f, idx, dat)
    ensures Follows(NoWrite, idx, dat, f)
  {
  }

  lemma AppendFollows(hash: Hasher, s: Sys, p: nat, idx: seq<Byte>, dat: seq<Byte>)
    requires InOrder(hash, s) && p < |s.procs| && s.procs[p].pc == AppIdx && Passes(s.procs[p])
             && Bytes(s.files, idx, dat)
    ensures Follows(ToIdx(s.files.idxEnd, EncodeRec(NewRec(s.procs[p]))), idx, dat, AddRec(s.files, NewRec(s.procs[p])))
  {
    assert s.procs[p].op.StoreOp? by { Knows(hash, Logical(s), p); }
    NewRecFollows(s.files, idx, dat, NewRec(s.procs[p]));
  }

  lemma RewriteFollows(hash: Hasher, s: Sys, p: nat, idx: seq<Byte>, dat: seq<Byte>)
    requires InOrder(hash, s) && p < |s.procs| && s.procs[p].pc in {ReuseRec, DelRec} && Passes(s.procs[p])
    requires Bytes(s.files, idx, dat)
    ensures var me := s.procs[p];
            Follows(WriteOf(hash, s.files, me), idx, dat, FilesAfter(hash, s.files, me))
  {
    hide InOrder;
    var f, me := s.files, s.procs[p];
    RecInPlace(hash, s, p);
    RecInLimits(idx, f, me.off);
    if me.pc == ReuseRec {
      RecFollows(f, idx, dat, me.off, StoredRec(me));
    } else {
      BlanksAreClean(|me.rec.key|);
      RecFollows(f, idx, dat, me.off, BlankedRec(me));
    }
  }

  lemma BlanksAreClean(n: nat)
    ensures SEP !in Blanks(n) && |Blanks(n)| == n
  {
  }

  /** What a process reads next, it reads from the bytes: a pointer, a record that passes all checks of the reader, or
      data with its newline. */
  lemma BytesRead(hash: Hasher, s: Sys, p: nat, idx: seq<Byte>, dat: seq<Byte>)
    requires InOrder(hash, s) && p < |s.procs| && Bytes(s.files, idx, dat)
    ensures var me := s.procs[p];
            && (me.pc in {Examine, FreeExamine} && me.off != 0 ==>
                    ParseRec(idx, me.off, false) == Read(RecAt(s.files, me.off)))
            && (me.pc == ScanRead ==>
                  ParseRec(idx, me.cursor, true) == if me.cursor in s.files.recs then Read(RecAt(s.files, me.cursor))
                    else Eof)
            && (me.pc in {ReadData, ScanData} ==>
                  var a, n := me.rec.datoff, |DatAt(s.files, me.rec.datoff)|;
                  a + n < |dat| && me.rec.datlen == n + 1 && dat[a..a + n] == DatAt(s.files, a)
                    && dat[a + n] == NEWLINE)
  {
    ReadsFind(hash, s, p);
    hide InOrder;
    var me := s.procs[p];
    match me.pc
    case Examine | FreeExamine => if me.off != 0 { ReadRecBytes(idx, s.files, me.off, false); }
    case ScanRead =>
      if me.cursor in s.files.recs { ReadRecBytes(idx, s.files, me.cursor, true); }
      else { assert me.cursor == |idx|; }
    case ReadData | ScanData => ReadDataBytes(dat, s.files, me.rec.datoff);
    case _ =>
  }

  // ---- Every run ----

  /** The table db_open writes. */
  function Zeros(n: nat): (z: seq<Byte>)
    ensures |z| == Slot(n)
  {
    if n == 0 then [] else Zeros(n - 1) + PtrField(0)
  }

  lemma {:induction false} ZeroHead(n: nat, k: nat)
    requires k < n
    ensures Holds(Zeros(n), Slot(k), PtrField(0))
  {
    if k == n - 1 {
      HoldsExtended(Zeros(k), PtrField(0), 0, []);
    } else {
      ZeroHead(n - 1, k);
      HoldsExtended(Zeros(n - 1), PtrField(0), Slot(k), PtrField(0));
    }
  }

  lemma StartBytes()
    ensures Bytes(EmptyFiles(), Zeros(NLIST) + [NEWLINE], [])
  {
    var f, idx := EmptyFiles(), Zeros(NLIST) + [NEWLINE];
    forall k | 0 <= k < NLIST ensures HeadAt(idx, f, k) {
      ZeroHead(NLIST, k);
      HoldsExtended(Zeros(NLIST), [NEWLINE], Slot(k), PtrField(0));
      EmptyHead(k);
    }
    HoldsExtended(Zeros(NLIST), [NEWLINE], 0, []);
  }

  lemma EmptyHead(k: nat)
    requires k < NLIST
    ensures Slot(k) in EmptyFiles().ptrs && EmptyFiles().ptrs[Slot(k)] == 0
  {
    assert Slot(k) % PTR_SZ == 0;
  }

  /** The bytes after the writes of a run so far: those of the mover of each step. */
  ghost predicate ByteStep(hash: Hasher, s: Sys, s': Sys, idx: seq<Byte>, dat: seq<Byte>, idx': seq<Byte>,
                           dat': seq<Byte>)
  {
    exists p: nat {:trigger s.procs[p]} :: p < |s.procs| && Passes(s.procs[p]) && NextOf(hash, s, s', p) &&
      if s.procs[p].pc == Idle then idx' == idx && dat' == dat
      else match WriteOf(hash, s.files, s.procs[p])
           case NoWrite => idx' == idx && dat' == dat
           case ToIdx(off, bytes) => off <= |idx| && idx' == PWrite(idx, off, bytes) && dat' == dat
           case ToDat(off, bytes) => off <= |dat| && idx' == idx && dat' == PWrite(dat, off, bytes)
  }

  /** A run in bytes: it begins with the table db_open writes and an empty data file. */
  ghost predicate ByteRun(hash: Hasher, n: nat, run: seq<Sys>, idx: seq<seq<Byte>>, dat: seq<seq<Byte>>) {
    && Run(hash, n, run) && |idx| == |dat| == |run| && idx[0] == Zeros(NLIST) + [NEWLINE] && dat[0] == []
    && forall i {:trigger ByteStepAt(hash, run, idx, dat, i)} :: 0 < i < |run| ==> ByteStepAt(hash, run, idx, dat, i)
  }

  ghost predicate ByteStepAt(hash: Hasher, run: seq<Sys>, idx: seq<seq<Byte>>, dat: seq<seq<Byte>>, i: nat) {
    0 < i < |run| == |idx| == |dat| && ByteStep(hash, run[i - 1], run[i], idx[i - 1], dat[i - 1], idx[i], dat[i])
  }

  lemma ByteStepKeeps(hash: Hasher, s: Sys, s': Sys, idx: seq<Byte>, dat: seq<Byte>, idx': seq<Byte>, dat': seq<Byte>)
    requires InOrder(hash, s) && Bytes(s.files, idx, dat) && ByteStep(hash, s, s', idx, dat, idx', dat')
    ensures Bytes(s'.files, idx', dat')
  {
    hide InOrder, Bytes, Step, PWrite;
    var p: nat :| p < |s.procs| && Passes(s.procs[p]) && NextOf(hash, s, s', p) &&
      if s.procs[p].pc == Idle then idx' == idx && dat' == dat
      else match WriteOf(hash, s.files, s.procs[p])
           case NoWrite => idx' == idx && dat' == dat
           case ToIdx(off, bytes) => off <= |idx| && idx' == PWrite(idx, off, bytes) && dat' == dat
           case ToDat(off, bytes) => off <= |dat| && idx' == idx && dat' == PWrite(dat, off, bytes);
    if s.procs[p].pc != Idle {
      BytesFollow(hash, s, p, idx, dat);
      hide WriteOf;
    }
  }

  /** In every run within the limits the bytes of the two files are at every moment those of the linked records. */
  lemma {:induction false} RunBytes(hash: Hasher, n: nat, run: seq<Sys>, idx: seq<seq<Byte>>, dat: seq<seq<Byte>>,
                                    i: nat)
    requires InTable(hash) && ByteRun(hash, n, run, idx, dat) && i < |run|
    ensures Bytes(run[i].files, idx[i], dat[i])
  {
    hide InOrder, Bytes, ByteStep, Next;
    if i == 0 {
      StartBytes();
    } else {
      RunBytes(hash, n, run, idx, dat, i - 1);
      RunInOrder(hash, n, run, i - 1);
      assert ByteStepAt(hash, run, idx, dat, i);
      ByteStepKeeps(hash, run[i - 1], run[i], idx[i - 1], dat[i - 1], idx[i], dat[i]);
    }
  }
}
