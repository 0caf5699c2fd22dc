/**
 The main results about concurrent use: every reachable state is in order, every call takes effect at once when
 it unlocks its chain, and no set of processes can block each other for ever.
 */
module DbInterleaving {
  import opened Options
  import opened Seals
  import opened CText
  import opened DbFormat
  import opened DbFiles
  import opened DbEffects
  import opened DbBytes
  import opened DbSpec
  import opened DbProcesses
  import opened DbInvariant
  import opened DbSteps
  import opened DbSearchSteps
  import opened DbLockSteps
  import opened DbWriteSteps
  import opened DbDeleteSteps
  import opened DbMoves

  // ---- Logical and physical files ----

  predicate Cuts(pc: Pc) { pc == DelFree || pc == DelRec || pc == DelFreeHead || pc == DelUnlink }

  /** The process, if any, that has begun to write a deletion and has not yet bridged the gap in its chain. */
  function Cutter(s: Sys): Option<nat> {
    match s.free.writer
    case Some(q) => if q < |s.procs| && Cuts(s.procs[q].pc) then Some(q) else None
    case None => None
  }

  /** The state as if that write had been made already. */
  function Logical(s: Sys): Sys {
    match Cutter(s)
    case Some(q) => s.(files := SetPtr(s.files, s.procs[q].ptroff, s.procs[q].rec.ptr))
    case None => s
  }

  function LogicalStep(hash: Hasher, s: Sys, p: nat): Sys
    requires p < |s.procs| && Enabled(hash, s, p)
  {
    if s.procs[p].pc == DelData then Cut(hash, s, p)
    else if s.procs[p].pc == DelUnlink then Bridged(s, p)
    else Step(hash, s, p)
  }

  lemma LogicalStepKeeps(hash: Hasher, s: Sys, p: nat)
    requires StandingOf(hash, s) == Firm && p < |s.procs| && Enabled(hash, s, p)
    ensures StandingOf(hash, LogicalStep(hash, s, p)) == Firm
  {
    hide StandingOf;
    match s.procs[p].pc
    case LockChain => KeepsLockChain(hash, s, p);
    case ReadHead => KeepsReadHead(hash, s, p);
    case Examine =>
      if s.procs[p].off == 0 { KeepsMiss(hash, s, p); }
      else if RecAt(s.files, s.procs[p].off).key == KeyOf(s.procs[p].op) { KeepsHit(hash, s, p); }
      else { KeepsAdvance(hash, s, p); }
    case ReadData => KeepsReadData(hash, s, p);
    case InsHead => KeepsInsHead(hash, s, p);
    case LockFree => KeepsLockFree(hash, s, p);
    case FreeHead => KeepsFreeHead(hash, s, p);
    case FreeExamine => KeepsFreeExamine(hash, s, p);
    case FreeTake => KeepsFreeTake(hash, s, p);
    case FreeUnlock => KeepsFreeUnlock(hash, s, p);
    case ReuseData => KeepsReuseData(hash, s, p);
    case ReuseRec => KeepsReuseRec(hash, s, p);
    case LinkHead => KeepsLinkHead(hash, s, p);
    case LockDat => KeepsLockDat(hash, s, p);
    case AppDat => KeepsAppDat(hash, s, p);
    case UnlockDat => KeepsUnlockDat(hash, s, p);
    case LockIdx => KeepsLockIdx(hash, s, p);
    case AppIdx => KeepsAppIdx(hash, s, p);
    case UnlockIdx => KeepsUnlockIdx(hash, s, p);
    case Overwrite => KeepsOverwrite(hash, s, p);
    case DelLock => KeepsDelLock(hash, s, p);
    case DelData => KeepsCut(hash, s, p);
    case DelFree => KeepsDelFree(hash, s, p);
    case DelRec => KeepsDelRec(hash, s, p);
    case DelFreeHead => KeepsDelFreeHead(hash, s, p);
    case DelUnlink => KeepsBridged(hash, s, p);
    case DelUnlock => KeepsDelUnlock(hash, s, p);
    case RepHead => KeepsRepHead(hash, s, p);
    case Unlock => KeepsUnlock(hash, s, p);
    case ScanLock => KeepsScanLock(hash, s, p);
    case ScanRead => KeepsScanRead(hash, s, p);
    case ScanData => KeepsScanData(hash, s, p);
    case ScanUnlock => KeepsScanUnlock(hash, s, p);
  }

  // ---- A physical step is the logical one ----

  // The parts of the invariant, one at a time.

  lemma PartitionFact(hash: Hasher, s: Sys)
    requires StandingOf(hash, s) == Firm
    ensures RecordsPlaced(s.files, s.g) && Partition(s.g)
  {
    hide StandingOf;
    Look(hash, s);
  }

  lemma LinkedFact(hash: Hasher, s: Sys)
    requires StandingOf(hash, s) == Firm
    ensures |s.g.lists| == NLIST && ListsLinked(s.files, s.g) && FreeBlank(s.files, s.g)
  {
    hide StandingOf;
    Look(hash, s);
  }

  lemma HeldFact(hash: Hasher, s: Sys)
    requires StandingOf(hash, s) == Firm
    ensures DataHeld(s.files, s.g)
  {
    hide StandingOf;
    Look(hash, s);
  }

  lemma LaidFact(hash: Hasher, s: Sys)
    requires StandingOf(hash, s) == Firm
    ensures Tiled(s.files) && Disjoint(s.files)
  {
    hide StandingOf;
    Look(hash, s);
  }

  lemma ViewOfChain(hash: Hasher, s: Sys, h: nat)
    requires StandingOf(hash, s) == Firm && h < NHASH
    ensures ChainView(hash, s, h)
  {
    hide StandingOf;
    Look(hash, s);
  }

  lemma OwnedFact(hash: Hasher, s: Sys)
    requires StandingOf(hash, s) == Firm
    ensures Owned(s)
  {
    hide StandingOf;
    Look(hash, s);
  }

  lemma HeadsPlaced(hash: Hasher, s: Sys)
    requires StandingOf(hash, s) == Firm
    ensures s.files.idxEnd !in s.files.recs
    ensures forall l {:trigger Slot(l)} :: 0 <= l < NLIST ==> Slot(l) !in s.files.recs && Slot(l) < s.files.idxEnd
  {
    hide StandingOf;
    PartitionFact(hash, s);
  }

  lemma BridgeSlot(hash: Hasher, s: Sys, q: nat)
    requires StandingOf(hash, s) == Firm && q < |s.procs| && Cuts(s.procs[q].pc)
    ensures var you := s.procs[q]; var k := 1 + ChainOf(hash, you.op);
            && 1 <= k < NLIST && WritesChain(hash, you, k - 1) && you.ptroff < s.files.idxEnd
            && (if you.ptroff in s.files.recs then you.ptroff in s.g.owner && s.g.owner[you.ptroff] == k
                else you.ptroff == Slot(k))
  {
    hide StandingOf;
    var you := s.procs[q];
    Knows(hash, s, q);
    PartitionFact(hash, s);
    NodePlaced(s.files, s.g, 1 + ChainOf(hash, you.op), you.pos);
  }

  /** The slot a deletion has still to write is on its own chain, so nobody else is looking at it. */
  lemma PendingSlot(hash: Hasher, s: Sys, q: nat)
    requires StandingOf(hash, Logical(s)) == Firm && Cutter(s) == Some(q)
    ensures var t, you := Logical(s), s.procs[q];
            var k := 1 + ChainOf(hash, you.op);
            && 1 <= k < NLIST && WritesChain(hash, you, k - 1)
            && you.ptroff < t.files.idxEnd && t.files.idxEnd !in t.files.recs
            && (if you.ptroff in t.files.recs then you.ptroff in t.g.owner && t.g.owner[you.ptroff] == k
                else you.ptroff == Slot(k))
    ensures var t := Logical(s); forall l {:trigger Slot(l)} :: 0 <= l < NLIST ==> Slot(l) !in t.files.recs
  {
    hide StandingOf;
    HeadsPlaced(hash, Logical(s));
    BridgeSlot(hash, Logical(s), q);
  }

  /** Another process's chain is not the cutter's. */
  lemma OtherChainSlot(hash: Hasher, s: Sys, q: nat, p: nat)
    requires StandingOf(hash, Logical(s)) == Firm && Cutter(s) == Some(q) && p < |s.procs| && p != q
    ensures Compatible(hash, s.procs[q], s.procs[p])
  {
    hide StandingOf;
    Locks(hash, Logical(s));
    Exclusive(hash, Logical(s), q, p);
  }

  lemma PtrElsewhere(f: Files, a: nat, v: nat, b: nat)
    requires a != b
    ensures PtrAt(SetPtr(f, a, v), b) == PtrAt(f, b)
  {
  }

  lemma ReadsSame(hash: Hasher, s: Sys, q: nat, k: nat)
    requires StandingOf(hash, Logical(s)) == Firm && Cutter(s) == Some(q)
    requires k < NLIST && k != 1 + ChainOf(hash, s.procs[q].op)
    ensures PtrAt(s.files, Slot(k)) == PtrAt(Logical(s).files, Slot(k)) && s.procs[q].ptroff != Slot(k)
  {
    hide StandingOf;
    PendingSlot(hash, s, q);
    PtrElsewhere(s.files, s.procs[q].ptroff, s.procs[q].rec.ptr, Slot(k));
  }

  lemma RecordSame(hash: Hasher, s: Sys, q: nat, o: nat, k: nat)
    requires StandingOf(hash, Logical(s)) == Firm && Cutter(s) == Some(q)
    requires o in Logical(s).g.owner && Logical(s).g.owner[o] == k && k != 1 + ChainOf(hash, s.procs[q].op)
    requires o in Logical(s).files.recs
    ensures RecAt(s.files, o) == RecAt(Logical(s).files, o) && s.procs[q].ptroff != o
  {
    hide StandingOf;
    PendingSlot(hash, s, q);
  }

  lemma NoCutterAfter(hash: Hasher, s: Sys, p: nat)
    requires StandingOf(hash, s) == Firm && p < |s.procs| && Enabled(hash, s, p) && Cutter(s) == None
    ensures Cutter(Step(hash, s, p)) == if s.procs[p].pc == DelData then Some(p) else None
    ensures s.procs[p].pc != DelUnlink
  {
    hide StandingOf, SetPtr, PutRec, AddRec, PutData, AddData, Blanks, DataOf, Unlinked, Pushed, DataAdded, RecAdded,
         MapAfter, ChainOf;
    assert FreeWriter(s, p) <==> HoldsFree(s.procs[p].pc) by {
      Locks(hash, s);
      var mine := FreeWriter(s, p);
    }
  }

  lemma AloneStep(hash: Hasher, s: Sys, p: nat)
    requires StandingOf(hash, s) == Firm && p < |s.procs| && Enabled(hash, s, p) && Cutter(s) == None
    ensures Logical(Step(hash, s, p)) == LogicalStep(hash, s, p)
  {
    hide StandingOf;
    NoCutterAfter(hash, s, p);
  }

  lemma CutterRec(hash: Hasher, s: Sys, p: nat)
    requires StandingOf(hash, Logical(s)) == Firm && Cutter(s) == Some(p) && s.procs[p].pc == DelRec
    ensures Logical(StepDelRec(s, p)) == StepDelRec(Logical(s), p)
  {
    hide StandingOf;
    var t, me := Logical(s), s.procs[p];
    assert me.ptroff != me.off by {
      PendingSlot(hash, s, p);
      Knows(hash, t, p);
    }
    PutRecCommutes(s.files, me.off, BlankedRec(me), me.ptroff, me.rec.ptr);
    hide SetPtr, PutRec;
  }

  lemma CutterHead(hash: Hasher, s: Sys, p: nat)
    requires StandingOf(hash, Logical(s)) == Firm && Cutter(s) == Some(p) && s.procs[p].pc in {DelFree, DelFreeHead}
    ensures s.procs[p].pc == DelFree ==> Logical(StepDelFree(s, p)) == StepDelFree(Logical(s), p)
    ensures s.procs[p].pc == DelFreeHead ==> Logical(StepDelFreeHead(s, p)) == StepDelFreeHead(Logical(s), p)
  {
    hide StandingOf;
    var me := s.procs[p];
    ReadsSame(hash, s, p, FREE);
    SetPtrCommutes(s.files, me.ptroff, me.rec.ptr, Slot(FREE), me.off);
    hide SetPtr;
  }

  lemma CutterStep(hash: Hasher, s: Sys, p: nat)
    requires StandingOf(hash, Logical(s)) == Firm && Cutter(s) == Some(p) && Enabled(hash, s, p)
    ensures Logical(Step(hash, s, p)) == LogicalStep(hash, Logical(s), p)
  {
    hide StandingOf, StepDelRec, StepDelFree, StepDelFreeHead, SetPtr;
    match s.procs[p].pc {
      case DelFree | DelFreeHead => CutterHead(hash, s, p);
      case DelRec => CutterRec(hash, s, p);
      case DelUnlink =>
    }
  }

  /** The free list is the cutter's, so no other process is at a step that needs it. */
  lemma FreeBusy(hash: Hasher, s: Sys, q: nat, p: nat)
    requires StandingOf(hash, Logical(s)) == Firm && Cutter(s) == Some(q) && p < |s.procs| && p != q
             && Enabled(hash, s, p)
    ensures var pc := s.procs[p].pc; !HoldsFree(pc) && !Scans(pc) && pc != LockFree && pc != DelLock && pc != ScanLock
  {
    hide StandingOf;
    OtherChainSlot(hash, s, q, p);
    var t := Logical(s);
    Locks(hash, t);
    var mine := FreeWriter(t, q);
  }

  lemma NotItsChain(hash: Hasher, s: Sys, q: nat, p: nat)
    requires StandingOf(hash, Logical(s)) == Firm && Cutter(s) == Some(q) && p < |s.procs| && p != q
    requires HoldsChain(s.procs[p].pc)
    ensures ChainOf(hash, s.procs[q].op) != ChainOf(hash, s.procs[p].op)
  {
    hide StandingOf;
    OtherChainSlot(hash, s, q, p);
    PendingSlot(hash, s, q);
  }

  /** The steps that read: they find what the logical files have. */
  lemma OtherReads(hash: Hasher, s: Sys, q: nat, p: nat)
    requires StandingOf(hash, Logical(s)) == Firm && Cutter(s) == Some(q) && p < |s.procs| && p != q
    requires s.procs[p].pc in {ReadHead, InsHead, RepHead}
    ensures var k := 1 + ChainOf(hash, s.procs[p].op); PtrAt(s.files, Slot(k)) == PtrAt(Logical(s).files, Slot(k))
    ensures s.procs[p].pc == ReadHead ==> s.procs[p].ptroff == Slot(1 + ChainOf(hash, s.procs[p].op))
  {
    hide StandingOf, PtrAt;
    NotItsChain(hash, s, q, p);
    Knows(hash, Logical(s), p);
    ReadsSame(hash, s, q, 1 + ChainOf(hash, s.procs[p].op));
  }

  lemma OtherRecord(hash: Hasher, s: Sys, q: nat, p: nat)
    requires StandingOf(hash, Logical(s)) == Firm && Cutter(s) == Some(q) && p < |s.procs| && p != q
    requires s.procs[p].pc == Examine && s.procs[p].off != 0
    ensures RecAt(s.files, s.procs[p].off) == RecAt(Logical(s).files, s.procs[p].off)
  {
    hide StandingOf, PtrAt, RecAt;
    var t, me := Logical(s), s.procs[p];
    var k := 1 + ChainOf(hash, me.op);
    NotItsChain(hash, s, q, p);
    Knows(hash, t, p);
    StepOn(hash, t, k, me.pos);
    PartitionFact(hash, t);
    assert t.g.lists[k][me.pos] == me.off;
    RecordSame(hash, s, q, me.off, k);
  }

  // The steps that write: their writes and the missing one commute.

  lemma OtherReuse(hash: Hasher, s: Sys, q: nat, p: nat)
    requires StandingOf(hash, Logical(s)) == Firm && Cutter(s) == Some(q) && p < |s.procs| && p != q
    requires s.procs[p].pc == ReuseRec
    ensures var me := s.procs[p];
            SetPtr(PutRec(s.files, me.off, StoredRec(me)), s.procs[q].ptroff, s.procs[q].rec.ptr)
            == PutRec(Logical(s).files, me.off, StoredRec(me))
  {
    hide StandingOf;
    var me, slot := s.procs[p], s.procs[q].ptroff;
    PendingSlot(hash, s, q);
    Knows(hash, Logical(s), p);
    assert slot != me.off;
    PutRecCommutes(s.files, me.off, StoredRec(me), slot, s.procs[q].rec.ptr);
  }

  lemma OtherHead(hash: Hasher, s: Sys, q: nat, p: nat)
    requires StandingOf(hash, Logical(s)) == Firm && Cutter(s) == Some(q) && p < |s.procs| && p != q
    requires s.procs[p].pc == LinkHead
    ensures s.procs[q].ptroff != Slot(1 + ChainOf(hash, s.procs[p].op))
  {
    hide StandingOf;
    var k := 1 + ChainOf(hash, s.procs[p].op);
    assert k < NLIST && k != 1 + ChainOf(hash, s.procs[q].op) by {
      OtherChainSlot(hash, s, q, p);
      PendingSlot(hash, s, q);
      Knows(hash, Logical(s), p);
    }
    ReadsSame(hash, s, q, k);
  }

  lemma OtherLink(hash: Hasher, s: Sys, q: nat, p: nat)
    requires StandingOf(hash, Logical(s)) == Firm && Cutter(s) == Some(q) && p < |s.procs| && p != q
    requires s.procs[p].pc == LinkHead
    ensures var me := s.procs[p]; var k := 1 + ChainOf(hash, me.op);
            SetPtr(SetPtr(s.files, Slot(k), me.off), s.procs[q].ptroff, s.procs[q].rec.ptr)
            == SetPtr(Logical(s).files, Slot(k), me.off)
  {
    hide StandingOf;
    OtherHead(hash, s, q, p);
    PtrsCommute(s, q, Slot(1 + ChainOf(hash, s.procs[p].op)), s.procs[p].off);
  }

  lemma PtrsCommute(s: Sys, q: nat, slot: nat, v: nat)
    requires Cutter(s) == Some(q) && s.procs[q].ptroff != slot
    ensures SetPtr(SetPtr(s.files, slot, v), s.procs[q].ptroff, s.procs[q].rec.ptr) == SetPtr(Logical(s).files, slot, v)
  {
    SetPtrCommutes(s.files, s.procs[q].ptroff, s.procs[q].rec.ptr, slot, v);
  }

  lemma OtherAppend(hash: Hasher, s: Sys, q: nat, r: Rec)
    requires StandingOf(hash, Logical(s)) == Firm && Cutter(s) == Some(q)
    ensures SetPtr(AddRec(s.files, r), s.procs[q].ptroff, s.procs[q].rec.ptr) == AddRec(Logical(s).files, r)
  {
    hide StandingOf;
    PendingSlot(hash, s, q);
    AddRecCommutes(s.files, r, s.procs[q].ptroff, s.procs[q].rec.ptr);
  }

  lemma AddRecCommutes(f: Files, r: Rec, slot: nat, v: nat)
    requires slot != f.idxEnd
    ensures SetPtr(AddRec(f, r), slot, v) == AddRec(SetPtr(f, slot, v), r)
  {
    if slot in f.recs {
      var r' := f.recs[slot].(ptr := v);
      assert f.recs[f.idxEnd := r][slot := r'] == f.recs[slot := r'][f.idxEnd := r];
    }
  }

  /** A step of another process leaves the cutter where it is. */
  lemma CutterStays(hash: Hasher, s: Sys, q: nat, p: nat)
    requires Cutter(s) == Some(q) && p < |s.procs| && p != q && Enabled(hash, s, p) && Step(hash, s, p).free == s.free
    ensures var s' := Step(hash, s, p);
            Logical(s') == s'.(files := SetPtr(s'.files, s.procs[q].ptroff, s.procs[q].rec.ptr))
  {
    hide Step, SetPtr;
    StepMoves(hash, s, p);
  }

  lemma OtherReuseStep(hash: Hasher, s: Sys, q: nat, p: nat)
    requires StandingOf(hash, Logical(s)) == Firm && Cutter(s) == Some(q) && p < |s.procs| && p != q
    requires s.procs[p].pc == ReuseRec
    ensures Logical(Step(hash, s, p)) == LogicalStep(hash, Logical(s), p)
  {
    hide StandingOf, SetPtr, PutRec;
    OtherReuse(hash, s, q, p);
    CutterStays(hash, s, q, p);
  }

  lemma OtherLinkStep(hash: Hasher, s: Sys, q: nat, p: nat)
    requires StandingOf(hash, Logical(s)) == Firm && Cutter(s) == Some(q) && p < |s.procs| && p != q
    requires s.procs[p].pc == LinkHead
    ensures Logical(Step(hash, s, p)) == LogicalStep(hash, Logical(s), p)
  {
    hide StandingOf, SetPtr;
    assert Step(hash, s, p) == StepLinkHead(hash, s, p);
    assert LogicalStep(hash, Logical(s), p) == StepLinkHead(hash, Logical(s), p);
    hide Step, LogicalStep;
    OtherLink(hash, s, q, p);
    CutterStays(hash, s, q, p);
  }

  lemma AppendStepIs(hash: Hasher, s: Sys, p: nat)
    requires p < |s.procs| && s.procs[p].pc == AppIdx
    ensures Step(hash, s, p) == StepAppIdx(s, p) && p < |Logical(s).procs|
    ensures LogicalStep(hash, Logical(s), p) == StepAppIdx(Logical(s), p)
  {
    hide SetPtr, StepAppIdx;
  }

  lemma OtherAppendStep(hash: Hasher, s: Sys, q: nat, p: nat)
    requires StandingOf(hash, Logical(s)) == Firm && Cutter(s) == Some(q) && p < |s.procs| && p != q
    requires s.procs[p].pc == AppIdx
    ensures Logical(Step(hash, s, p)) == LogicalStep(hash, Logical(s), p)
  {
    hide StandingOf, Step, LogicalStep;
    AppendStepIs(hash, s, p);
    CutterStays(hash, s, q, p);
    hide SetPtr, AddRec, ChainOf, RecSize;
    OtherAppend(hash, s, q, NewRec(s.procs[p]));
  }

  lemma OtherReadStep(hash: Hasher, s: Sys, q: nat, p: nat)
    requires StandingOf(hash, Logical(s)) == Firm && Cutter(s) == Some(q) && p < |s.procs| && p != q
             && Enabled(hash, s, p)
    requires s.procs[p].pc in {ReadHead, InsHead, RepHead, Examine}
    ensures Logical(Step(hash, s, p)) == LogicalStep(hash, Logical(s), p)
  {
    hide StandingOf;
    if s.procs[p].pc != Examine {
      OtherReads(hash, s, q, p); } else if s.procs[p].off != 0 { OtherRecord(hash, s, q, p);
    }
    CutterStays(hash, s, q, p);
    hide SetPtr;
  }

  lemma OtherPlainStep(hash: Hasher, s: Sys, q: nat, p: nat)
    requires Cutter(s) == Some(q) && p < |s.procs| && p != q && Enabled(hash, s, p)
    requires s.procs[p].pc in {LockChain, LockDat, UnlockDat, LockIdx, UnlockIdx, Unlock}
    ensures Logical(Step(hash, s, p)) == LogicalStep(hash, Logical(s), p)
  {
    hide SetPtr;
    CutterStays(hash, s, q, p);
  }

  /** The chain pointers in the index file have nothing to do with the data file. */
  lemma OtherDataStep(hash: Hasher, s: Sys, q: nat, p: nat)
    requires Cutter(s) == Some(q) && p < |s.procs| && p != q && Enabled(hash, s, p)
    requires s.procs[p].pc in {ReadData, ReuseData, Overwrite, AppDat}
    ensures Logical(Step(hash, s, p)) == LogicalStep(hash, Logical(s), p)
  {
    hide Blanks, ChainOf, DataOf, AfterLook;
    CutterStays(hash, s, q, p);
  }

  lemma OtherStep(hash: Hasher, s: Sys, q: nat, p: nat)
    requires StandingOf(hash, Logical(s)) == Firm && Cutter(s) == Some(q) && p < |s.procs| && p != q
             && Enabled(hash, s, p)
    ensures Logical(Step(hash, s, p)) == LogicalStep(hash, Logical(s), p)
  {
    hide StandingOf, Step;
    FreeBusy(hash, s, q, p);
    match s.procs[p].pc
    case ReuseRec => OtherReuseStep(hash, s, q, p);
    case LinkHead => OtherLinkStep(hash, s, q, p);
    case AppIdx => OtherAppendStep(hash, s, q, p);
    case ReadHead | InsHead | RepHead | Examine => OtherReadStep(hash, s, q, p);
    case LockChain | LockDat | UnlockDat | LockIdx | UnlockIdx | Unlock => OtherPlainStep(hash, s, q, p);
    case ReadData | ReuseData | Overwrite | AppDat => OtherDataStep(hash, s, q, p);
    case _ => assert false;
  }

  /** Whoever moves, the logical state moves by the logical step. */
  lemma Simulates(hash: Hasher, s: Sys, p: nat)
    requires StandingOf(hash, Logical(s)) == Firm && p < |s.procs| && Enabled(hash, s, p)
    ensures Logical(Step(hash, s, p)) == LogicalStep(hash, Logical(s), p)
  {
    hide StandingOf;
    match Cutter(s)
    case None => AloneStep(hash, s, p);
    case Some(q) => if q == p { CutterStep(hash, s, p); } else { OtherStep(hash, s, q, p); }
  }

  // ---- Runs ----

  /** Between any two steps the logical state satisfies the invariant. */
  ghost predicate InOrder(hash: Hasher, s: Sys) {
    StandingOf(hash, Logical(s)) == Firm
  }

  lemma BeginKeeps(hash: Hasher, s: Sys, s': Sys, p: nat)
    requires InOrder(hash, s) && p < |s.procs| && s.procs[p].pc == Idle
    requires (exists op :: CanInvoke(s, p, op) && s' == Invoke(s, p, op)) || s' == InvokeScan(s, p)
             || s' == InvokeRewind(s, p)
    ensures InOrder(hash, s')
  {
    hide StandingOf, SetPtr;
    if exists op :: CanInvoke(s, p, op) && s' == Invoke(s, p, op) {
      var op :| CanInvoke(s, p, op) && s' == Invoke(s, p, op);
      assert Logical(s') == Invoke(Logical(s), p, op);
      KeepsInvoke(hash, Logical(s), p, op);
    } else if s' == InvokeScan(s, p) {
      assert Logical(s') == InvokeScan(Logical(s), p);
      KeepsInvokeScan(hash, Logical(s), p);
    } else {
      assert Logical(s') == InvokeRewind(Logical(s), p);
      KeepsInvokeRewind(hash, Logical(s), p);
    }
  }

  lemma NextKeeps(hash: Hasher, s: Sys, s': Sys)
    requires InOrder(hash, s) && Next(hash, s, s')
    ensures InOrder(hash, s')
  {
    hide InOrder, Step, Enabled;
    var p: nat :| p < |s.procs| && NextOf(hash, s, s', p);
    if Enabled(hash, s, p) && s' == Step(hash, s, p) {
      StepKeeps(hash, s, p);
    } else {
      BeginKeeps(hash, s, s', p);
    }
  }

  lemma StepKeeps(hash: Hasher, s: Sys, p: nat)
    requires InOrder(hash, s) && p < |s.procs| && Enabled(hash, s, p)
    ensures InOrder(hash, Step(hash, s, p))
  {
    hide StandingOf, Step, Enabled, LogicalStep;
    assert Enabled(hash, Logical(s), p) by { EnabledSame(hash, s, p); }
    Simulates(hash, s, p);
    LogicalStepKeeps(hash, Logical(s), p);
  }

  lemma EnabledSame(hash: Hasher, s: Sys, p: nat)
    requires p < |s.procs| && Enabled(hash, s, p)
    ensures p < |Logical(s).procs| && Enabled(hash, Logical(s), p)
  {
  }

  ghost predicate NextAt(hash: Hasher, run: seq<Sys>, i: nat) {
    0 < i < |run| ==> Next(hash, run[i - 1], run[i])
  }

  /** A run of n processes on a new database: any interleaving of their steps. */
  ghost predicate Run(hash: Hasher, n: nat, run: seq<Sys>) {
    && |run| > 0 && run[0] == Init(n)
    && forall i {:trigger NextAt(hash, run, i)} :: 0 < i < |run| ==> NextAt(hash, run, i)
  }

  lemma StartInOrder(hash: Hasher, n: nat)
    requires InTable(hash)
    ensures InOrder(hash, Init(n))
  {
    SteadyAtStart(hash, n);
  }

  lemma {:induction false} RunInOrder(hash: Hasher, n: nat, run: seq<Sys>, i: nat)
    requires InTable(hash) && Run(hash, n, run) && i < |run|
    ensures InOrder(hash, run[i])
  {
    hide StandingOf, Next;
    if i == 0 {
      StartInOrder(hash, n);
    } else {
      RunInOrder(hash, n, run, i - 1);
      assert NextAt(hash, run, i);
      NextKeeps(hash, run[i - 1], run[i]);
    }
  }

  // ---- What every reachable state promises ----

  /** Each call takes effect on a plain map in one step, and answers what that map answers at that step. */
  lemma CallsAreAtomic(hash: Hasher, n: nat, run: seq<Sys>, i: nat)
    requires InTable(hash) && Run(hash, n, run) && i < |run|
    ensures var s := run[i];
            |s.answers| == |s.hist| && MapAnswers(s.hist, s.answers) && s.m == MapRun(s.hist)
  {
    RunInOrder(hash, n, run, i);
    Look(hash, Logical(run[i]));
  }

  /** That one step is the call's own: the one in which it unlocks its chain and returns. */
  lemma CommitsAtUnlock(hash: Hasher, s: Sys, s': Sys, p: nat)
    requires p < |s.procs| && NextOf(hash, s, s', p)
    ensures if s.procs[p].pc == Unlock && s'.procs[p].pc == Idle
            then s'.hist == s.hist + [s.procs[p].op] && s'.answers == s.answers + [s.procs[p].res]
            else s'.hist == s.hist && s'.answers == s.answers && s'.m == s.m
  {
    hide Step, ChainOf;
    if Enabled(hash, s, p) && s' == Step(hash, s, p) { StepMoves(hash, s, p); }
  }

  /** A chain nobody is writing to is, in the files themselves, a finite list that holds exactly the committed
      entries of its hash value. */
  lemma UnlockedChain(hash: Hasher, s: Sys, h: nat)
    requires InOrder(hash, s) && h < NHASH && ChainLock(s, h).writer == None
    ensures |s.g.lists| == NLIST && Linked(s.files, 1 + h, s.g.lists[1 + h])
    ensures Agrees(hash, s.files, s.g.lists[1 + h], h, s.m)
  {
    hide StandingOf;
    var t := Logical(s);
    LinkedFact(hash, t);
    ViewOfChain(hash, t, h);
    if Cutter(s).Some? {
      var q := Cutter(s).value;
      assert h != ChainOf(hash, s.procs[q].op) by {
        PendingSlot(hash, s, q);
        Locks(hash, t);
        var writing := Writer(t, ChainOf(hash, s.procs[q].op), q);
      }
      ChainUncut(hash, s, q, h);
    }
  }

  lemma ChainUncut(hash: Hasher, s: Sys, q: nat, h: nat)
    requires InOrder(hash, s) && Cutter(s) == Some(q) && h < NHASH && h != ChainOf(hash, s.procs[q].op)
    requires |s.g.lists| == NLIST
    requires Linked(Logical(s).files, 1 + h, s.g.lists[1 + h])
             && Agrees(hash, Logical(s).files, s.g.lists[1 + h], h, s.m)
    ensures Linked(s.files, 1 + h, s.g.lists[1 + h]) && Agrees(hash, s.files, s.g.lists[1 + h], h, s.m)
  {
    var t, xs := Logical(s), s.g.lists[1 + h];
    PartitionFact(hash, t);
    PendingSlot(hash, s, q);
    forall j | 0 <= j <= |xs| ensures PtrAt(s.files, Node(1 + h, xs, j)) == Elem(xs, j) {
      if j == 0 { ReadsSame(hash, s, q, 1 + h); } else { assert xs[j - 1] != s.procs[q].ptroff; }
      PtrElsewhere(s.files, s.procs[q].ptroff, s.procs[q].rec.ptr, Node(1 + h, xs, j));
    }
    forall o | o in xs ensures SameEntry(t.files, s.files, o) {}
    AgreesFrame(hash, t.files, s.files, xs, h, s.m, s.m);
  }

  /** Every record is on exactly one list, once, or in the hands of exactly one process that is storing or
      deleting it. The lists are what the pointers in the files spell, once a deletion under way has bridged its
      chain; so the free list always is, and all its records are blank. */
  lemma RecordsAccountedFor(hash: Hasher, s: Sys)
    requires InOrder(hash, s)
    ensures |s.g.lists| == NLIST && Partition(s.g) && s.g.owner.Keys == s.files.recs.Keys
    ensures forall o :: o in s.g.owner ==>
              var w := s.g.owner[o];
              if w < NLIST then o in s.g.lists[w] else w - NLIST < |s.procs| && Loose(s.procs[w - NLIST]) == Some(o)
    ensures ListsLinked(Logical(s).files, s.g) && Linked(s.files, FREE, s.g.lists[FREE]) && FreeBlank(s.files, s.g)
  {
    hide StandingOf;
    var t := Logical(s);
    PartitionFact(hash, t);
    LinkedFact(hash, t);
    FreeUncut(hash, s);
    OwnedFact(hash, t);
    forall o | o in s.g.owner && s.g.owner[o] >= NLIST
      ensures s.g.owner[o] - NLIST < |s.procs| && Loose(s.procs[s.g.owner[o] - NLIST]) == Some(o)
    {
      assert Accounted(t, o);
    }
  }

  lemma FreeUncut(hash: Hasher, s: Sys)
    requires InOrder(hash, s) && |s.g.lists| == NLIST && Linked(Logical(s).files, FREE, s.g.lists[FREE])
    requires FreeBlank(Logical(s).files, s.g)
    ensures Linked(s.files, FREE, s.g.lists[FREE]) && FreeBlank(s.files, s.g)
  {
    if Cutter(s).Some? {
      var q, xs := Cutter(s).value, s.g.lists[FREE];
      var slot := s.procs[q].ptroff;
      PendingSlot(hash, s, q);
      PartitionFact(hash, Logical(s));
      forall j | 0 <= j <= |xs| ensures PtrAt(s.files, Node(FREE, xs, j)) == Elem(xs, j) {
        if j == 0 { ReadsSame(hash, s, q, FREE); } else { assert xs[j - 1] != slot; }
        PtrElsewhere(s.files, slot, s.procs[q].rec.ptr, Node(FREE, xs, j));
      }
    }
  }

  /** No two extents share a byte, each belongs to one record or one process, every record's length field is its
      data's length, and the index file is whole records laid end to end. */
  lemma FilesWellFormed(hash: Hasher, s: Sys)
    requires InOrder(hash, s)
    ensures DataHeld(s.files, s.g) && Tiled(s.files) && Disjoint(s.files)
  {
    hide StandingOf, Partition, ListsLinked;
    DataOwned(hash, s);
    LaidFact(hash, Logical(s));
    SameLayout(s);
  }

  lemma PtrLayout(f: Files, slot: nat, v: nat)
    requires Tiled(SetPtr(f, slot, v)) && Disjoint(SetPtr(f, slot, v))
    ensures Tiled(f) && Disjoint(f)
  {
    hide DigitCount;
    TiledSame(SetPtr(f, slot, v), f);
    DisjointSame(SetPtr(f, slot, v), f);
  }

  lemma SameLayout(s: Sys)
    requires Tiled(Logical(s).files) && Disjoint(Logical(s).files)
    ensures Tiled(s.files) && Disjoint(s.files)
  {
    match Cutter(s)
    case Some(q) => PtrLayout(s.files, s.procs[q].ptroff, s.procs[q].rec.ptr);
    case None =>
  }

  lemma DataOwned(hash: Hasher, s: Sys)
    requires InOrder(hash, s)
    ensures DataHeld(s.files, s.g)
  {
    HeldFact(hash, Logical(s));
    match Cutter(s)
    case Some(q) => DataBeforePtr(s.files, s.g, s.procs[q].ptroff, s.procs[q].rec.ptr);
    case None =>
  }

  lemma DataBeforePtr(f: Files, g: Shape, slot: nat, v: nat)
    requires DataHeld(SetPtr(f, slot, v), g)
    ensures DataHeld(f, g)
  {
    forall o | o in f.recs
      ensures var r := f.recs[o];
              r.datoff in f.dat && r.datlen == |f.dat[r.datoff]| + 1 && r.datoff in g.extents
                && g.extents[r.datoff] == InRecord(o)
    {
      SetPtrKeeps(f, slot, v, o);
    }
  }

  /** Bridging moves no record and no data. */
  lemma BridgedSame(s: Sys)
    ensures var t := Logical(s);
            && t.procs == s.procs && t.g == s.g && t.m == s.m
            && t.files.recs.Keys == s.files.recs.Keys && t.files.dat == s.files.dat && t.files.idxEnd == s.files.idxEnd
  {
  }

  /** No read ever misses: none of the aborts of the record and data readers can happen. */
  lemma ReadsFind(hash: Hasher, s: Sys, p: nat)
    requires InOrder(hash, s) && p < |s.procs|
    ensures var me := s.procs[p];
            && (me.pc in {Examine, FreeExamine} && me.off != 0 ==> me.off in s.files.recs)
            && (me.pc in {ReadData, ScanData} ==>
                  me.rec.datoff in s.files.dat && me.rec.datlen == |s.files.dat[me.rec.datoff]| + 1)
            && (me.pc == ScanRead ==> me.cursor in s.files.recs || me.cursor == s.files.idxEnd)
  {
    hide StandingOf, Logical, SetPtr;
    var t, me := Logical(s), s.procs[p];
    BridgedSame(s);
    match me.pc
    case Examine =>
      Knows(hash, t, p);
      StepOn(hash, t, 1 + ChainOf(hash, me.op), me.pos);
    case FreeExamine =>
      Knows(hash, t, p);
      StepOn(hash, t, FREE, me.pos);
    case ReadData | ScanData => DataFound(hash, t, p);
    case ScanRead => Knows(hash, t, p);
    case _ =>
  }

  lemma DataFound(hash: Hasher, s: Sys, p: nat)
    requires StandingOf(hash, s) == Firm && p < |s.procs| && s.procs[p].pc in {ReadData, ScanData}
    ensures var me := s.procs[p]; me.rec.datoff in s.files.dat && me.rec.datlen == |s.files.dat[me.rec.datoff]| + 1
  {
    hide StandingOf;
    HeldFact(hash, s);
    Knows(hash, s, p);
  }

  ghost predicate AboutToAdd(s: Sys, q: nat, key: CString, data: CString) {
    && q < |s.procs| && s.procs[q].pc in {UnlockIdx, LinkHead}
    && s.procs[q].op.StoreOp? && s.procs[q].op.key == key && s.procs[q].op.data == data
  }

  lemma BridgedView(s: Sys, h: nat)
    ensures View(Logical(s), h) == View(s, h)
  {
  }

  /** What a scan returns is an entry of the map, as its chain has it at that moment, or the entry an unfinished
      store is about to add. */
  lemma ScanSeesEntries(hash: Hasher, s: Sys, p: nat)
    requires InOrder(hash, s) && p < |s.procs| && s.procs[p].pc == ScanData
    ensures var key, data := s.procs[p].rec.key, DatAt(s.files, s.procs[p].rec.datoff);
            || (key in View(s, hash(key)) && View(s, hash(key))[key] == data)
            || exists q :: AboutToAdd(s, q, key, data)
  {
    var t, me := Logical(s), s.procs[p];
    BridgedSame(s);
    BridgedView(s, hash(me.rec.key));
    hide StandingOf, Logical, View;
    ScanKnows(hash, t, p);
    var w := t.g.owner[me.off];
    if w < NLIST {
      ScanOnChain(hash, t, p);
    } else {
      ScanOfStore(hash, t, p, w - NLIST);
      assert AboutToAdd(s, w - NLIST, me.rec.key, DatAt(s.files, me.rec.datoff));
    }
  }

  lemma ScanKnows(hash: Hasher, s: Sys, p: nat)
    requires StandingOf(hash, s) == Firm && p < |s.procs| && s.procs[p].pc == ScanData
    ensures ScanSees(s.files, s.g, s.procs[p])
  {
    hide StandingOf;
    Knows(hash, s, p);
  }

  lemma ScanOnChain(hash: Hasher, s: Sys, p: nat)
    requires StandingOf(hash, s) == Firm && p < |s.procs| && s.procs[p].pc == ScanData
    requires s.procs[p].off in s.g.owner && s.g.owner[s.procs[p].off] < NLIST
    ensures var key, data := s.procs[p].rec.key, DatAt(s.files, s.procs[p].rec.datoff);
            key in View(s, hash(key)) && View(s, hash(key))[key] == data
  {
    hide StandingOf;
    var w := s.g.owner[s.procs[p].off];
    ScanKnows(hash, s, p);
    PartitionFact(hash, s);
    assert s.procs[p].off in s.g.lists[w];
    ViewOfChain(hash, s, w - 1);
  }

  lemma ScanOfStore(hash: Hasher, s: Sys, p: nat, q: nat)
    requires StandingOf(hash, s) == Firm && p < |s.procs| && s.procs[p].pc == ScanData
    requires s.procs[p].off in s.g.owner && s.g.owner[s.procs[p].off] == Priv(q)
    ensures AboutToAdd(s, q, s.procs[p].rec.key, DatAt(s.files, s.procs[p].rec.datoff))
  {
    hide StandingOf;
    ScanKnows(hash, s, p);
    OwnedFact(hash, s);
    assert Accounted(s, s.procs[p].off);
    assert !HoldsFree(s.procs[q].pc) by {
      Locks(hash, s);
      var reading, writing := FreeReader(s, p), FreeWriter(s, q);
    }
    Knows(hash, s, q);
  }

  /** While a process has a chain or the free list locked no other process changes that list, nor anything of the
      process itself; so its search is a walk along one fixed finite list. */
  lemma ChainFrozen(hash: Hasher, s: Sys, s': Sys, p: nat, q: nat)
    requires InOrder(hash, s) && p < |s.procs| && NextOf(hash, s, s', p) && q < |s.procs| && q != p
    ensures |s'.procs| == |s.procs| && s'.procs[q] == s.procs[q]
    ensures HoldsChain(s.procs[q].pc) ==> Chain(hash, s'.g, s.procs[q]) == Chain(hash, s.g, s.procs[q])
    ensures HoldsFree(s.procs[q].pc) ==> Free(s'.g) == Free(s.g)
  {
    hide StandingOf, Step;
    if Enabled(hash, s, p) && s' == Step(hash, s, p) {
      StepMoves(hash, s, p);
      if HoldsChain(s.procs[q].pc) && s.procs[p].pc in {LinkHead, DelData} { OtherChain(hash, s, p, q); }
      if HoldsFree(s.procs[q].pc) && s.procs[p].pc in {FreeTake, DelFreeHead} { OtherFree(hash, s, p, q); }
    }
  }

  /** The free list has one writer. */
  lemma OtherFree(hash: Hasher, s: Sys, p: nat, q: nat)
    requires InOrder(hash, s) && p < |s.procs| && q < |s.procs| && q != p && HoldsFree(s.procs[q].pc)
    ensures s.procs[p].pc !in {FreeTake, DelFreeHead}
  {
    hide StandingOf;
    Locks(hash, Logical(s));
    Exclusive(hash, Logical(s), p, q);
  }

  lemma ChainAdvances(hash: Hasher, s: Sys, q: nat)
    requires InOrder(hash, s) && q < |s.procs| && s.procs[q].pc == Examine
    ensures var me, s' := s.procs[q], Step(hash, s, q);
            var xs := Chain(hash, s.g, me);
            s'.g == s.g && me.pos <= |xs| && (s'.procs[q].pc == Examine ==> s'.procs[q].pos == me.pos + 1 <= |xs|)
  {
    hide StandingOf, RecAt, KeyOf;
    var t, me := Logical(s), s.procs[q];
    assert Walking(1 + ChainOf(hash, me.op), Chain(hash, t.g, me), me)
           && 1 + ChainOf(hash, me.op) < NLIST == |t.g.lists| by {
      Knows(hash, t, q);
    }
    StepOn(hash, t, 1 + ChainOf(hash, me.op), me.pos);
    hide SetPtr, Logical;
  }

  lemma FreeAdvances(hash: Hasher, s: Sys, q: nat)
    requires InOrder(hash, s) && q < |s.procs| && s.procs[q].pc == FreeExamine
    ensures var me, s' := s.procs[q], Step(hash, s, q);
            s'.g == s.g && me.pos <= |Free(s.g)|
              && (s'.procs[q].pc == FreeExamine ==> s'.procs[q].pos == me.pos + 1 <= |Free(s.g)|)
  {
    hide StandingOf;
    var t, me := Logical(s), s.procs[q];
    assert Walking(FREE, Free(t.g), me) && |t.g.lists| == NLIST by { Knows(hash, t, q); }
    StepOn(hash, t, FREE, me.pos);
    hide SetPtr, Logical;
  }

  /** And each look at a record either ends the search or brings it one record nearer to the end of that list. */
  lemma SearchAdvances(hash: Hasher, s: Sys, q: nat)
    requires InOrder(hash, s) && q < |s.procs| && s.procs[q].pc in {Examine, FreeExamine}
    ensures var me, s' := s.procs[q], Step(hash, s, q);
            var xs := if me.pc == Examine then Chain(hash, s.g, me) else Free(s.g);
            s'.g == s.g && me.pos <= |xs| && (s'.procs[q].pc == me.pc ==> s'.procs[q].pos == me.pos + 1 <= |xs|)
  {
    hide StandingOf;
    if s.procs[q].pc == Examine { ChainAdvances(hash, s, q); } else { FreeAdvances(hash, s, q); }
  }

  /** What is left of a call: how far it is from its end, and in a search how much of the list is still ahead. */
  ghost function Left(hash: Hasher, s: Sys, p: nat): (nat, int)
    requires p < |s.procs|
  {
    var me := s.procs[p];
    (Stage(me.pc),
     if me.pc == Examine then |Chain(hash, s.g, me)| - me.pos
     else if me.pc == FreeExamine then |Free(s.g)| - me.pos else 0)
  }

  /** Each step of a fetch, store or delete brings it nearer to its end, and no step of another process takes it further
      away: so a call needs only finitely many steps of its own. */
  lemma CallsEnd(hash: Hasher, s: Sys, s': Sys, p: nat, q: nat)
    requires InOrder(hash, s) && p < |s.procs| && q < |s.procs| && NextOf(hash, s, s', q) && InCall(s.procs[p].pc)
    ensures |s'.procs| == |s.procs| && Left(hash, s, p).1 >= 0
    ensures var (was, now) := (Left(hash, s, p), Left(hash, s', p));
            if p == q then now.0 < was.0 || (now.0 == was.0 && 0 <= now.1 < was.1) else now == was
  {
    hide InOrder, Step, Chain;
    if s.procs[p].pc in {Examine, FreeExamine} { SearchAdvances(hash, s, p); }
    if p == q {
      StepFrom(hash, s, p);
      StepMoves(hash, s, p);
      SameChain(hash, s.g, s.procs[p], s'.procs[p]);
    } else {
      ChainFrozen(hash, s, s', q, p);
    }
  }

  lemma SameChain(hash: Hasher, g: Shape, me: Proc, me': Proc)
    requires me'.op == me.op
    ensures Chain(hash, g, me') == Chain(hash, g, me)
  {
  }

  /** Who changes a chain does not change the one that another has locked. */
  lemma OtherChain(hash: Hasher, s: Sys, p: nat, q: nat)
    requires InOrder(hash, s) && p < |s.procs| && q < |s.procs| && q != p && HoldsChain(s.procs[q].pc)
    requires s.procs[p].pc in {LinkHead, DelData}
    ensures ChainOf(hash, s.procs[q].op) != ChainOf(hash, s.procs[p].op)
  {
    hide StandingOf;
    var t := Logical(s);
    Locks(hash, t);
    Exclusive(hash, t, p, q);
    Knows(hash, t, p);
  }

  // ---- No deadlock ----

  /** Does where that process is keep this one from its next call? A fetch of a chain waits for its writer only; a store
      or a delete for everyone who has the chain. The free list has one writer or any number of scans. */
  predicate HoldsUp(hash: Hasher, you: Proc, me: Proc) {
    match me.pc
    case LockChain =>
      if me.op.FetchOp? then WritesChain(hash, you, ChainOf(hash, me.op))
      else HoldsChain(you.pc) && ChainOf(hash, you.op) == ChainOf(hash, me.op)
    case LockFree | DelLock => HoldsFree(you.pc) || Scans(you.pc)
    case ScanLock => HoldsFree(you.pc)
    case LockDat => AppendsDat(you.pc)
    case LockIdx => AppendsIdx(you.pc)
    case _ => false
  }

  /** A call waits if and only if some process is in a place that excludes it; so fetches share a chain, scans share the
      free list, and calls on different chains never wait for each other's chains. */
  lemma WaitsOnlyFor(hash: Hasher, s: Sys, p: nat)
    requires InOrder(hash, s) && p < |s.procs| && s.procs[p].pc != Idle
    ensures Enabled(hash, s, p) <==> forall q :: 0 <= q < |s.procs| ==> !HoldsUp(hash, s.procs[q], s.procs[p])
  {
    hide StandingOf;
    var t := Logical(s);
    assert t.procs == s.procs && t.chain == s.chain && t.free == s.free && t.datApp == s.datApp && t.idxApp == s.idxApp;
    Locks(hash, t);
    if s.procs[p].pc == LockChain { ChainWaits(hash, t, p); } else { OtherWaits(hash, t, p); }
    assert Enabled(hash, s, p) == Enabled(hash, t, p);
  }

  lemma ChainWaits(hash: Hasher, s: Sys, p: nat)
    requires ChainLocks(hash, s) && p < |s.procs| && s.procs[p].pc == LockChain
    ensures Enabled(hash, s, p) <==> forall q :: 0 <= q < |s.procs| ==> !HoldsUp(hash, s.procs[q], s.procs[p])
  {
    hide ChainOf;
    var h := ChainOf(hash, s.procs[p].op);
    var l := ChainLock(s, h);
    if l.writer.Some? {
      var q := l.writer.value;
      assert Writer(s, h, q);
      assert HoldsUp(hash, s.procs[q], s.procs[p]);
    } else {
      forall q: nat | q < |s.procs| ensures !WritesChain(hash, s.procs[q], h) { assert !Writer(s, h, q); }
      if q :| q in l.readers {
        assert Reader(s, h, q);
        assert HoldsUp(hash, s.procs[q], s.procs[p]) <==> !s.procs[p].op.FetchOp?;
      } else {
        forall q: nat | q < |s.procs| ensures !ReadsChain(hash, s.procs[q], h) { assert !Reader(s, h, q); }
      }
    }
  }

  lemma OtherWaits(hash: Hasher, s: Sys, p: nat)
    requires OtherLocks(s) && p < |s.procs| && s.procs[p].pc != LockChain && s.procs[p].pc != Idle
    ensures Enabled(hash, s, p) <==> forall q :: 0 <= q < |s.procs| ==> !HoldsUp(hash, s.procs[q], s.procs[p])
  {
    if !Enabled(hash, s, p) {
      var q := Blocker(s, p);
      var a, b, c, d := FreeReader(s, q), FreeWriter(s, q), DatHolder(s, q), IdxHolder(s, q);
      assert HoldsUp(hash, s.procs[q], s.procs[p]);
    } else {
      forall q: nat | q < |s.procs| ensures !HoldsUp(hash, s.procs[q], s.procs[p]) {
        var a, b, c, d := FreeReader(s, q), FreeWriter(s, q), DatHolder(s, q), IdxHolder(s, q);
      }
    }
  }

  /** Locks are taken in the order chain, free list, appending, so some process can always go on. */
  lemma NoDeadlock(hash: Hasher, s: Sys, p: nat)
    requires InOrder(hash, s) && p < |s.procs| && s.procs[p].pc != Idle
    ensures exists q: nat :: q < |s.procs| && Enabled(hash, s, q)
  {
    hide StandingOf;
    var t := Logical(s);
    assert t.procs == s.procs && t.chain == s.chain && t.free == s.free && t.datApp == s.datApp && t.idxApp == s.idxApp;
    Locks(hash, t);
    SomeEnabled(hash, t, p);
    var r: nat :| r < |t.procs| && Enabled(hash, t, r);
    assert Enabled(hash, s, r);
  }

  lemma SomeEnabled(hash: Hasher, s: Sys, p: nat)
    requires ChainLocks(hash, s) && OtherLocks(s) && p < |s.procs| && s.procs[p].pc != Idle
    ensures exists q: nat :: q < |s.procs| && Enabled(hash, s, q)
  {
    hide ChainLocks, OtherLocks, BlockerOfChain, Blocker;
    if !Enabled(hash, s, p) {
      ChainHolder(hash, s, p);
      var q := BlockerOfChain(hash, s, p);
      if !Enabled(hash, s, q) { OtherHolder(hash, s, q); }
    }
  }

  lemma ChainHolder(hash: Hasher, s: Sys, p: nat)
    requires ChainLocks(hash, s) && p < |s.procs| && s.procs[p].pc != Idle && !Enabled(hash, s, p)
    ensures var q := BlockerOfChain(hash, s, p);
            q < |s.procs| && s.procs[q].pc != LockChain && s.procs[q].pc != Idle
  {
    if s.procs[p].pc != LockChain { return; }
    var h, q := ChainOf(hash, s.procs[p].op), BlockerOfChain(hash, s, p);
    var shared, mine := Reader(s, h, q), Writer(s, h, q);
  }

  lemma OtherHolder(hash: Hasher, s: Sys, p: nat)
    requires OtherLocks(s) && p < |s.procs| && s.procs[p].pc != LockChain && s.procs[p].pc != Idle
             && !Enabled(hash, s, p)
    ensures var q := Blocker(s, p); q < |s.procs| && Enabled(hash, s, q)
  {
    var q := Blocker(s, p);
    var a, b, c, d := FreeReader(s, q), FreeWriter(s, q), DatHolder(s, q), IdxHolder(s, q);
  }

  /** Who holds the chain lock p waits for; p itself if it waits for none. */
  ghost function BlockerOfChain(hash: Hasher, s: Sys, p: nat): nat
    requires p < |s.procs|
  {
    var l := ChainLock(s, ChainOf(hash, s.procs[p].op));
    if s.procs[p].pc != LockChain then p
    else match l.writer
      case Some(q) => q
      case None => if l.readers == {} then p else var q :| q in l.readers; q
  }

  /** Who holds the lock p waits for, when that is not a chain's. */
  ghost function Blocker(s: Sys, p: nat): nat {
    if p >= |s.procs| then p
    else match s.procs[p].pc
      case LockFree | DelLock =>
        (match s.free.writer
         case Some(q) => q
         case None => if s.free.readers == {} then p else var q :| q in s.free.readers; q)
      case ScanLock => if s.free.writer.Some? then s.free.writer.value else p
      case LockDat => if s.datApp.Some? then s.datApp.value else p
      case LockIdx => if s.idxApp.Some? then s.idxApp.value else p
      case _ => p
  }
}
