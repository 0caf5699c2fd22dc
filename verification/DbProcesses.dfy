/**
 Any number of processes on one database. A step is one call of the operating system: lock or unlock a byte
 range, read or write a pointer, a record or a data extent. Locks are the byte of a hash chain, the byte
 of the free list, and the two ranges that cover appending. The fields `g`, `m`, `hist` and `answers` of a
 system are bookkeeping that no step looks at.

 Reading a record is one step here and two calls in _db_readidx: a readv for its chain pointer and length, and a
 read for its body. In a search the chain or the free list is locked meanwhile. In the scan no chain is locked, but a
 record never changes its length (DbRunBytes.SizesStayOn), its body comes from the one read call, and the scan does not
 look at the chain pointer: the two calls are one at the moment of the second.
 */
module DbProcesses {
  import opened Options
  import opened CText
  import opened DbFormat
  import opened DbFiles
  import opened DbEffects
  import opened DbSpec

  /** Where a process is: the call it makes next. */
  datatype Pc =
    | Idle
    // _db_find_and_lock
    | LockChain | ReadHead | Examine
    // db_fetch
    | ReadData
    // db_store: a new record
    | InsHead
    | LockFree | FreeHead | FreeExamine | FreeTake | FreeUnlock
    | ReuseData | ReuseRec
    | LockDat | AppDat | UnlockDat | LockIdx | AppIdx | UnlockIdx
    | LinkHead
    // db_store: data of the same length
    | Overwrite
    // _db_dodelete, and what db_store does after it
    | DelLock | DelData | DelFree | DelRec | DelFreeHead | DelUnlink | DelUnlock
    | RepHead
    // unlock the chain and return
    | Unlock
    // db_nextrec
    | ScanLock | ScanRead | ScanData | ScanUnlock

  /** A process: its next call, the operation it serves, and the fields of its handle. `pos` counts the records
      a search has passed, and is bookkeeping too. */
  datatype Proc = Proc(pc: Pc, op: Op, ptroff: nat, off: nat, rec: Rec, ptr: nat, datoff: nat, free: nat,
                       res: Answer, cursor: nat, pos: nat)

  datatype Lock = Lock(readers: set<nat>, writer: Option<nat>)

  datatype Sys = Sys(files: Files, chain: map<nat, Lock>, free: Lock, datApp: Option<nat>, idxApp: Option<nat>,
                     procs: seq<Proc>,
                     g: Shape, m: Entries, hist: seq<Op>, answers: seq<Answer>)

  const UNLOCKED := Lock({}, None)

  function KeyOf(op: Op): CString {
    op.key
  }

  function DataOf(op: Op): CString {
    if op.StoreOp? then op.data else []
  }

  function ChainOf(hash: Hasher, op: Op): nat {
    hash(KeyOf(op))
  }

  function RecAt(f: Files, o: nat): Rec {
    if o in f.recs then f.recs[o] else Rec(0, [], 0, 0)
  }

  function DatAt(f: Files, a: nat): CString {
    if a in f.dat then f.dat[a] else []
  }

  function ChainLock(s: Sys, h: nat): Lock {
    if h in s.chain then s.chain[h] else UNLOCKED
  }

  // ---- Locks ----

  predicate CanRead(l: Lock) { l.writer == None }

  predicate CanWrite(l: Lock) { l.writer == None && l.readers == {} }

  /** May process p make its next call now? Only lock calls wait. */
  predicate Enabled(hash: Hasher, s: Sys, p: nat)
    requires p < |s.procs|
  {
    var me := s.procs[p];
    match me.pc
    case LockChain =>
      var l := ChainLock(s, ChainOf(hash, me.op));
      if me.op.FetchOp? then CanRead(l) else CanWrite(l)
    case LockFree => CanWrite(s.free)
    case DelLock => CanWrite(s.free)
    case ScanLock => CanRead(s.free)
    case LockDat => s.datApp == None
    case LockIdx => s.idxApp == None
    case Idle => false
    case _ => true
  }

  // ---- Steps ----

  function Set(s: Sys, p: nat, me: Proc): Sys
    requires p < |s.procs|
  {
    s.(procs := s.procs[p := me])
  }

  /** A call begins. The checks db_store makes before it touches the files have passed. */
  predicate CanInvoke(s: Sys, p: nat, op: Op) {
    && p < |s.procs| && s.procs[p].pc == Idle
    && (op.StoreOp? ==> op.flag != BadFlag && SEP !in op.key)
  }

  function Invoke(s: Sys, p: nat, op: Op): Sys
    requires CanInvoke(s, p, op)
  {
    Set(s, p, s.procs[p].(pc := LockChain, op := op))
  }

  function InvokeScan(s: Sys, p: nat): Sys
    requires p < |s.procs|
  {
    Set(s, p, s.procs[p].(pc := ScanLock))
  }

  function InvokeRewind(s: Sys, p: nat): Sys
    requires p < |s.procs|
  {
    Set(s, p, s.procs[p].(cursor := FIRST_REC))
  }

  function StepLockChain(hash: Hasher, s: Sys, p: nat): Sys
    requires p < |s.procs|
  {
    var me := s.procs[p];
    var h := ChainOf(hash, me.op);
    var l := ChainLock(s, h);
    var l' := if me.op.FetchOp? then l.(readers := l.readers + {p}) else l.(writer := Some(p));
    Set(s.(chain := s.chain[h := l']), p, me.(pc := ReadHead, ptroff := Slot(1 + h)))
  }

  function StepReadHead(s: Sys, p: nat): Sys
    requires p < |s.procs|
  {
    var me := s.procs[p];
    Set(s, p, me.(pc := Examine, off := PtrAt(s.files, me.ptroff), pos := 0))
  }

  /** What the caller does when the search has ended without a match. */
  function AfterMiss(me: Proc): Proc {
    match me.op
    case FetchOp(_) => me.(pc := Unlock, res := Found(None))
    case DeleteOp(_) => me.(pc := Unlock, res := Rc(-1))
    case StoreOp(_, _, flag) => if flag == DbReplace then me.(pc := Unlock, res := Rc(-1)) else me.(pc := InsHead)
  }

  /** What the caller does when the search has found the record it now has in its registers. */
  function AfterHit(me: Proc): Proc {
    match me.op
    case FetchOp(_) => me.(pc := ReadData)
    case DeleteOp(_) => me.(pc := DelLock)
    case StoreOp(_, data, flag) =>
      if flag == DbInsert then me.(pc := Unlock, res := Rc(1))
      else if |data| + 1 != me.rec.datlen then me.(pc := DelLock)
      else me.(pc := Overwrite)
  }

  /** The loop of _db_find_and_lock looks at record r. */
  function AfterLook(me: Proc, r: Rec): Proc {
    if me.off == 0 then AfterMiss(me)
    else if r.key == KeyOf(me.op) then AfterHit(me.(rec := r))
    else me.(ptroff := me.off, off := r.ptr, pos := me.pos + 1)
  }

  function StepExamine(s: Sys, p: nat): Sys
    requires p < |s.procs|
  {
    Set(s, p, AfterLook(s.procs[p], RecAt(s.files, s.procs[p].off)))
  }

  function StepReadData(s: Sys, p: nat): Sys
    requires p < |s.procs|
  {
    var me := s.procs[p];
    Set(s, p, me.(pc := Unlock, res := Found(Some(DatAt(s.files, me.rec.datoff)))))
  }

  function StepInsHead(hash: Hasher, s: Sys, p: nat): Sys
    requires p < |s.procs|
  {
    var me := s.procs[p];
    Set(s, p, me.(pc := LockFree, ptr := PtrAt(s.files, Slot(1 + ChainOf(hash, me.op)))))
  }

  function StepLockFree(s: Sys, p: nat): Sys
    requires p < |s.procs|
  {
    Set(s.(free := s.free.(writer := Some(p))), p, s.procs[p].(pc := FreeHead))
  }

  function StepFreeHead(s: Sys, p: nat): Sys
    requires p < |s.procs|
  {
    Set(s, p, s.procs[p].(pc := FreeExamine, ptroff := Slot(FREE), off := PtrAt(s.files, Slot(FREE)), pos := 0))
  }

  /** The loop of _db_findfree looks at record r. */
  function AfterFree(me: Proc, r: Rec): Proc {
    if me.off == 0 then me.(pc := FreeUnlock)
    else if |r.key| == |KeyOf(me.op)| && r.datlen == |DataOf(me.op)| + 1 then me.(pc := FreeTake, rec := r)
    else me.(ptroff := me.off, off := r.ptr, pos := me.pos + 1)
  }

  function StepFreeExamine(s: Sys, p: nat): Sys
    requires p < |s.procs|
  {
    Set(s, p, AfterFree(s.procs[p], RecAt(s.files, s.procs[p].off)))
  }

  function StepFreeTake(s: Sys, p: nat): Sys
    requires p < |s.procs|
  {
    var me := s.procs[p];
    var g := if |s.g.lists| > FREE && me.pos < |s.g.lists[FREE]| then Unlinked(s.g, FREE, me.pos, p) else s.g;
    Set(s.(files := SetPtr(s.files, me.ptroff, me.rec.ptr), g := g), p, me.(pc := FreeUnlock))
  }

  function StepFreeUnlock(s: Sys, p: nat): Sys
    requires p < |s.procs|
  {
    var me := s.procs[p];
    Set(s.(free := s.free.(writer := None)), p, me.(pc := if me.off == 0 then LockDat else ReuseData))
  }

  function StepReuseData(s: Sys, p: nat): Sys
    requires p < |s.procs|
  {
    var me := s.procs[p];
    Set(s.(files := PutData(s.files, me.rec.datoff, DataOf(me.op))), p, me.(pc := ReuseRec))
  }

  function StepReuseRec(s: Sys, p: nat): Sys
    requires p < |s.procs|
  {
    var me := s.procs[p];
    Set(s.(files := PutRec(s.files, me.off, Rec(me.ptr, KeyOf(me.op), me.rec.datoff, |DataOf(me.op)| + 1))), p,
        me.(pc := LinkHead))
  }

  function StepLinkHead(hash: Hasher, s: Sys, p: nat): Sys
    requires p < |s.procs|
  {
    var me := s.procs[p];
    var k := 1 + ChainOf(hash, me.op);
    var g := if k < |s.g.lists| then Pushed(s.g, k, me.off) else s.g;
    Set(s.(files := SetPtr(s.files, Slot(k), me.off), g := g), p, me.(pc := Unlock, res := Rc(0)))
  }

  function StepLockDat(s: Sys, p: nat): Sys
    requires p < |s.procs|
  {
    Set(s.(datApp := Some(p)), p, s.procs[p].(pc := AppDat))
  }

  function StepAppDat(s: Sys, p: nat): Sys
    requires p < |s.procs|
  {
    var me := s.procs[p];
    Set(s.(files := AddData(s.files, DataOf(me.op)), g := DataAdded(s.files, s.g, p)), p,
        me.(pc := UnlockDat, datoff := s.files.datEnd))
  }

  function StepUnlockDat(s: Sys, p: nat): Sys
    requires p < |s.procs|
  {
    Set(s.(datApp := None), p, s.procs[p].(pc := LockIdx))
  }

  function StepLockIdx(s: Sys, p: nat): Sys
    requires p < |s.procs|
  {
    Set(s.(idxApp := Some(p)), p, s.procs[p].(pc := AppIdx))
  }

  function StepAppIdx(s: Sys, p: nat): Sys
    requires p < |s.procs|
  {
    var me := s.procs[p];
    var r := Rec(me.ptr, KeyOf(me.op), me.datoff, |DataOf(me.op)| + 1);
    Set(s.(files := AddRec(s.files, r), g := RecAdded(s.files, s.g, me.datoff, p)), p,
        me.(pc := UnlockIdx, off := s.files.idxEnd))
  }

  function StepUnlockIdx(s: Sys, p: nat): Sys
    requires p < |s.procs|
  {
    Set(s.(idxApp := None), p, s.procs[p].(pc := LinkHead))
  }

  function StepOverwrite(s: Sys, p: nat): Sys
    requires p < |s.procs|
  {
    var me := s.procs[p];
    Set(s.(files := PutData(s.files, me.rec.datoff, DataOf(me.op))), p, me.(pc := Unlock, res := Rc(0)))
  }

  function StepDelLock(s: Sys, p: nat): Sys
    requires p < |s.procs|
  {
    Set(s.(free := s.free.(writer := Some(p))), p, s.procs[p].(pc := DelData))
  }

  function StepDelData(hash: Hasher, s: Sys, p: nat): Sys
    requires p < |s.procs|
  {
    var me := s.procs[p];
    var k := 1 + ChainOf(hash, me.op);
    var g := if k < |s.g.lists| && me.pos < |s.g.lists[k]| then Unlinked(s.g, k, me.pos, p) else s.g;
    var n: nat := if me.rec.datlen == 0 then 0 else me.rec.datlen - 1;
    Set(s.(files := PutData(s.files, me.rec.datoff, Blanks(n)), g := g), p, me.(pc := DelFree))
  }

  function StepDelFree(s: Sys, p: nat): Sys
    requires p < |s.procs|
  {
    Set(s, p, s.procs[p].(pc := DelRec, free := PtrAt(s.files, Slot(FREE))))
  }

  function StepDelRec(s: Sys, p: nat): Sys
    requires p < |s.procs|
  {
    var me := s.procs[p];
    Set(s.(files := PutRec(s.files, me.off, Rec(me.free, Blanks(|me.rec.key|), me.rec.datoff, me.rec.datlen))), p,
        me.(pc := DelFreeHead))
  }

  function StepDelFreeHead(s: Sys, p: nat): Sys
    requires p < |s.procs|
  {
    var me := s.procs[p];
    var g := if FREE < |s.g.lists| then Pushed(s.g, FREE, me.off) else s.g;
    Set(s.(files := SetPtr(s.files, Slot(FREE), me.off), g := g), p, me.(pc := DelUnlink))
  }

  function StepDelUnlink(s: Sys, p: nat): Sys
    requires p < |s.procs|
  {
    var me := s.procs[p];
    Set(s.(files := SetPtr(s.files, me.ptroff, me.rec.ptr)), p, me.(pc := DelUnlock))
  }

  /** What the caller does when the record is deleted. */
  function AfterDelete(me: Proc): Proc {
    if me.op.DeleteOp? then me.(pc := Unlock, res := Rc(0)) else me.(pc := RepHead)
  }

  function StepDelUnlock(s: Sys, p: nat): Sys
    requires p < |s.procs|
  {
    Set(s.(free := s.free.(writer := None)), p, AfterDelete(s.procs[p]))
  }

  function StepRepHead(hash: Hasher, s: Sys, p: nat): Sys
    requires p < |s.procs|
  {
    var me := s.procs[p];
    Set(s, p, me.(pc := LockDat, ptr := PtrAt(s.files, Slot(1 + ChainOf(hash, me.op)))))
  }

  function StepUnlock(hash: Hasher, s: Sys, p: nat): Sys
    requires p < |s.procs|
  {
    var me := s.procs[p];
    var h := ChainOf(hash, me.op);
    var l := ChainLock(s, h);
    var l' := if me.op.FetchOp? then l.(readers := l.readers - {p}) else l.(writer := None);
    Set(s.(chain := s.chain[h := l'],
           m := MapAfter(s.m, me.op), hist := s.hist + [me.op], answers := s.answers + [me.res]),
        p, me.(pc := Idle))
  }

  function StepScanLock(s: Sys, p: nat): Sys
    requires p < |s.procs|
  {
    Set(s.(free := s.free.(readers := s.free.readers + {p})), p, s.procs[p].(pc := ScanRead))
  }

  /** The loop of db_nextrec looks at the next record. */
  function AfterScan(me: Proc, f: Files): Proc {
    if me.cursor !in f.recs then me.(pc := ScanUnlock, res := Found(None))
    else
      var r := RecAt(f, me.cursor);
      var me' := me.(off := me.cursor, rec := r, cursor := me.cursor + RecSize(r));
      if AllBlank(r.key) then me' else me'.(pc := ScanData)
  }

  function StepScanRead(s: Sys, p: nat): Sys
    requires p < |s.procs|
  {
    Set(s, p, AfterScan(s.procs[p], s.files))
  }

  function StepScanData(s: Sys, p: nat): Sys
    requires p < |s.procs|
  {
    var me := s.procs[p];
    Set(s, p, me.(pc := ScanUnlock, res := Found(Some(DatAt(s.files, me.rec.datoff)))))
  }

  function StepScanUnlock(s: Sys, p: nat): Sys
    requires p < |s.procs|
  {
    Set(s.(free := s.free.(readers := s.free.readers - {p})), p, s.procs[p].(pc := Idle))
  }

  /** The next call of process p. */
  function Step(hash: Hasher, s: Sys, p: nat): Sys
    requires p < |s.procs| && Enabled(hash, s, p)
  {
    match s.procs[p].pc
    case LockChain => StepLockChain(hash, s, p)
    case ReadHead => StepReadHead(s, p)
    case Examine => StepExamine(s, p)
    case ReadData => StepReadData(s, p)
    case InsHead => StepInsHead(hash, s, p)
    case LockFree => StepLockFree(s, p)
    case FreeHead => StepFreeHead(s, p)
    case FreeExamine => StepFreeExamine(s, p)
    case FreeTake => StepFreeTake(s, p)
    case FreeUnlock => StepFreeUnlock(s, p)
    case ReuseData => StepReuseData(s, p)
    case ReuseRec => StepReuseRec(s, p)
    case LinkHead => StepLinkHead(hash, s, p)
    case LockDat => StepLockDat(s, p)
    case AppDat => StepAppDat(s, p)
    case UnlockDat => StepUnlockDat(s, p)
    case LockIdx => StepLockIdx(s, p)
    case AppIdx => StepAppIdx(s, p)
    case UnlockIdx => StepUnlockIdx(s, p)
    case Overwrite => StepOverwrite(s, p)
    case DelLock => StepDelLock(s, p)
    case DelData => StepDelData(hash, s, p)
    case DelFree => StepDelFree(s, p)
    case DelRec => StepDelRec(s, p)
    case DelFreeHead => StepDelFreeHead(s, p)
    case DelUnlink => StepDelUnlink(s, p)
    case DelUnlock => StepDelUnlock(s, p)
    case RepHead => StepRepHead(hash, s, p)
    case Unlock => StepUnlock(hash, s, p)
    case ScanLock => StepScanLock(s, p)
    case ScanRead => StepScanRead(s, p)
    case ScanData => StepScanData(s, p)
    case ScanUnlock => StepScanUnlock(s, p)
  }

  /** One step of the whole system: an idle process begins a call, or a busy one makes its next. */
  ghost predicate Next(hash: Hasher, s: Sys, s': Sys) {
    exists p: nat :: p < |s.procs| && NextOf(hash, s, s', p)
  }

  ghost predicate NextOf(hash: Hasher, s: Sys, s': Sys, p: nat)
    requires p < |s.procs|
  {
    || (Enabled(hash, s, p) && s' == Step(hash, s, p))
    || (exists op :: CanInvoke(s, p, op) && s' == Invoke(s, p, op))
    || (s.procs[p].pc == Idle && s' == InvokeScan(s, p))
    || (s.procs[p].pc == Idle && s' == InvokeRewind(s, p))
  }

  function IdleProc(): Proc {
    Proc(Idle, FetchOp([]), 0, 0, Rec(0, [], 0, 0), 0, 0, 0, Rc(0), FIRST_REC, 0)
  }

  /** n processes, all idle, on a new database. */
  function Init(n: nat): Sys {
    Sys(EmptyFiles(), map[], UNLOCKED, None, None, seq(n, i => IdleProc()), EmptyShape(), map[], [], [])
  }
}
