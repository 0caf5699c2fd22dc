/** What a step of one process leaves of the others, of its own call, and of the lists, and which way a call goes. */
module DbMoves {
  import opened Options
  import opened CText
  import opened DbFormat
  import opened DbFiles
  import opened DbEffects
  import opened DbSpec
  import opened DbProcesses
  import opened DbInvariant

  /** Between the beginning and the return of a fetch, store or delete. */
  predicate InCall(pc: Pc) {
    match pc
    case Idle | ScanLock | ScanRead | ScanData | ScanUnlock => false
    case _ => true
  }

  /** Only p moves; its call goes on with its operation, and only the unlocking of its chain ends it and enters
      it into the history. */
  ghost predicate Moves(s: Sys, s': Sys, p: nat)
    requires p < |s.procs|
  {
    && |s'.procs| == |s.procs| && s'.procs == s.procs[p := s'.procs[p]] && s'.procs[p].op == s.procs[p].op
    && InCall(s'.procs[p].pc) == (InCall(s.procs[p].pc) && s.procs[p].pc != Unlock)
    && (if s.procs[p].pc == Unlock
        then s'.procs[p].pc == Idle && s'.hist == s.hist + [s.procs[p].op] && s'.answers == s.answers + [s.procs[p].res]
        else s'.hist == s.hist && s'.answers == s.answers && s'.m == s.m)
  }

  /** Only linking, and the beginning of a deletion, change a hash chain, and only the process's own. */
  ghost predicate SparesLists(hash: Hasher, s: Sys, s': Sys, p: nat)
    requires p < |s.procs|
  {
    && |s'.g.lists| == |s.g.lists|
    && forall k :: 0 <= k < |s.g.lists| ==>
         (k == FREE && s.procs[p].pc in {FreeTake, DelFreeHead})
         || (k == 1 + ChainOf(hash, s.procs[p].op) && s.procs[p].pc in {LinkHead, DelData})
         || s'.g.lists[k] == s.g.lists[k]
  }

  lemma SearchMoves(hash: Hasher, s: Sys, p: nat)
    requires p < |s.procs| && Enabled(hash, s, p)
    requires s.procs[p].pc in {LockChain, ReadHead, Examine, ReadData, InsHead, RepHead, Unlock}
    ensures Moves(s, Step(hash, s, p), p) && Step(hash, s, p).g == s.g
  {
  }

  lemma FreeMoves(hash: Hasher, s: Sys, p: nat)
    requires p < |s.procs| && Enabled(hash, s, p)
    requires s.procs[p].pc in {LockFree, FreeHead, FreeExamine, FreeTake, FreeUnlock, ReuseData, ReuseRec}
    ensures Moves(s, Step(hash, s, p), p) && SparesLists(hash, s, Step(hash, s, p), p)
  {
  }

  lemma AppendMoves(hash: Hasher, s: Sys, p: nat)
    requires p < |s.procs| && Enabled(hash, s, p)
    requires s.procs[p].pc in {LockDat, AppDat, UnlockDat, LockIdx, AppIdx, UnlockIdx, LinkHead, Overwrite}
    ensures Moves(s, Step(hash, s, p), p) && SparesLists(hash, s, Step(hash, s, p), p)
  {
    match s.procs[p].pc
    case LinkHead =>
    case AppDat =>
    case AppIdx =>
    case _ =>
  }

  lemma DeleteMoves(hash: Hasher, s: Sys, p: nat)
    requires p < |s.procs| && Enabled(hash, s, p)
    requires s.procs[p].pc in {DelLock, DelData, DelFree, DelRec, DelFreeHead, DelUnlink, DelUnlock}
    ensures Moves(s, Step(hash, s, p), p) && SparesLists(hash, s, Step(hash, s, p), p)
  {
    match s.procs[p].pc
    case DelData =>
    case DelFreeHead =>
    case DelUnlock =>
    case _ =>
  }

  lemma ScanMoves(hash: Hasher, s: Sys, p: nat)
    requires p < |s.procs| && Enabled(hash, s, p) && s.procs[p].pc in {ScanLock, ScanUnlock}
    ensures Moves(s, Step(hash, s, p), p) && Step(hash, s, p).g == s.g
  {
  }

  lemma ScanReadMoves(hash: Hasher, s: Sys, p: nat)
    requires p < |s.procs| && Enabled(hash, s, p) && s.procs[p].pc in {ScanRead, ScanData}
    ensures Moves(s, Step(hash, s, p), p) && Step(hash, s, p).g == s.g
  {
    hide RecSize, AllBlank, RecAt, DatAt;
  }

  lemma StepMoves(hash: Hasher, s: Sys, p: nat)
    requires p < |s.procs| && Enabled(hash, s, p)
    ensures Moves(s, Step(hash, s, p), p) && SparesLists(hash, s, Step(hash, s, p), p)
  {
    hide Moves, Step, ChainOf;
    match s.procs[p].pc
    case LockChain | ReadHead | Examine | ReadData | InsHead | RepHead | Unlock => SearchMoves(hash, s, p);
    case LockFree | FreeHead | FreeExamine | FreeTake | FreeUnlock | ReuseData | ReuseRec => FreeMoves(hash, s, p);
    case LockDat | AppDat | UnlockDat | LockIdx | AppIdx | UnlockIdx | LinkHead | Overwrite => AppendMoves(hash, s, p);
    case DelLock | DelData | DelFree | DelRec | DelFreeHead | DelUnlink | DelUnlock => DeleteMoves(hash, s, p);
    case ScanLock | ScanUnlock => ScanMoves(hash, s, p);
    case ScanRead | ScanData => ScanReadMoves(hash, s, p);
    case Idle => assert false;
  }

  lemma SameProcs(hash: Hasher, s: Sys, s': Sys)
    requires Next(hash, s, s')
    ensures |s'.procs| == |s.procs|
  {
    hide Step;
    var p: nat :| p < |s.procs| && NextOf(hash, s, s', p);
    if Enabled(hash, s, p) && s' == Step(hash, s, p) { StepMoves(hash, s, p); }
  }

  // ---- Which way a call goes ----

  /** Places of a store that has found its key absent, up to the rewriting of a free record. */
  predicate NewKey(pc: Pc) {
    match pc
    case InsHead | LockFree | FreeHead | FreeExamine | FreeTake | FreeUnlock | ReuseData | ReuseRec => true
    case _ => false
  }

  /** Places of a call that has found its key and deletes the record. */
  predicate Replaces(pc: Pc) {
    match pc
    case DelLock | DelData | DelFree | DelRec | DelFreeHead | DelUnlink | DelUnlock | RepHead => true
    case _ => false
  }

  /** Places of a store that lets the files grow. */
  predicate Grows(pc: Pc) {
    match pc
    case LockDat | AppDat | UnlockDat | LockIdx | AppIdx => true
    case _ => false
  }

  /** The search has found this record under the key, and its data is as long as the new data, or not. */
  predicate Hits(me: Proc, r: Rec, sameLength: bool) {
    me.pc == Examine && me.off != 0 && r.key == KeyOf(me.op) && (r.datlen == |DataOf(me.op)| + 1) == sameLength
  }

  /** How far a call is from its end. */
  function Stage(pc: Pc): nat {
    match pc
    case LockChain => 40 case ReadHead => 39 case Examine => 38
    case InsHead => 37 case LockFree => 36 case FreeHead => 35 case FreeExamine => 34 case FreeTake => 33
    case FreeUnlock => 32 case ReuseData => 31 case ReuseRec => 30
    case DelLock => 29 case DelData => 28 case DelFree => 27 case DelRec => 26 case DelFreeHead => 25
    case DelUnlink => 24 case DelUnlock => 23 case RepHead => 22
    case LockDat => 21 case AppDat => 20 case UnlockDat => 19 case LockIdx => 18 case AppIdx => 17 case UnlockIdx => 16
    case ReadData | LinkHead | Overwrite => 2 case Unlock => 1
    case ScanLock => 4 case ScanRead => 3 case ScanData => 2 case ScanUnlock => 1
    case Idle => 0
  }

  /** From where a process can have come to where it is; it is nearer to the end of its call, unless it is in one of the
      three loops. */
  ghost predicate CameFrom(f: Files, me: Proc, me': Proc) {
    && (Stage(me'.pc) < Stage(me.pc) || (me'.pc == me.pc && me.pc in {Examine, FreeExamine, ScanRead}))
    && (me'.pc in {FreeTake, FreeUnlock} ==> me.pc in {FreeExamine, FreeTake})
    && (me'.pc == FreeExamine ==> me.pc == FreeExamine || (me.pc == FreeHead && me'.pos == 0))
    && (NewKey(me'.pc) ==> NewKey(me.pc) || (me.pc == Examine && me.off == 0))
    && (Replaces(me'.pc) && me.op.StoreOp? ==> Replaces(me.pc) || Hits(me, RecAt(f, me.off), false))
    && (me'.pc == Overwrite ==> Hits(me, RecAt(f, me.off), true))
    && (me'.pc == ReuseData ==> me.pc == FreeUnlock && me.off != 0)
    && (Grows(me'.pc) ==> Grows(me.pc) || me.pc == RepHead || (me.pc == FreeUnlock && me.off == 0))
    && (me'.pc == LockDat ==> me.pc == RepHead || me.pc == FreeUnlock)
  }

  lemma SearchFrom(hash: Hasher, s: Sys, p: nat)
    requires p < |s.procs| && Enabled(hash, s, p)
    requires s.procs[p].pc in {LockChain, ReadHead, Examine, ReadData, InsHead, RepHead, Unlock}
    ensures CameFrom(s.files, s.procs[p], Step(hash, s, p).procs[p])
  {
    hide ChainOf, RecAt, ChainLock, MapAfter, DatAt;
  }

  lemma FreeFrom(hash: Hasher, s: Sys, p: nat)
    requires p < |s.procs| && Enabled(hash, s, p)
    requires s.procs[p].pc in {LockFree, FreeHead, FreeExamine, FreeTake, FreeUnlock, ReuseData, ReuseRec}
    ensures CameFrom(s.files, s.procs[p], Step(hash, s, p).procs[p])
  {
    hide SetPtr, PutRec, PutData, RecAt, Unlinked;
  }

  lemma AppendFrom(hash: Hasher, s: Sys, p: nat)
    requires p < |s.procs| && Enabled(hash, s, p)
    requires s.procs[p].pc in {LockDat, AppDat, UnlockDat, LockIdx, AppIdx, UnlockIdx, LinkHead, Overwrite}
    ensures CameFrom(s.files, s.procs[p], Step(hash, s, p).procs[p])
  {
    hide SetPtr, AddRec, PutData, AddData, ChainOf, DataOf, KeyOf, RecAt, Pushed, DataAdded, RecAdded;
  }

  lemma DeleteFrom(hash: Hasher, s: Sys, p: nat)
    requires p < |s.procs| && Enabled(hash, s, p)
    requires s.procs[p].pc in {DelLock, DelData, DelFree, DelRec, DelFreeHead, DelUnlink, DelUnlock}
    ensures CameFrom(s.files, s.procs[p], Step(hash, s, p).procs[p])
  {
    hide SetPtr, PutRec, PutData, Blanks, ChainOf, RecAt, Unlinked, Pushed;
  }

  lemma ScanFrom(hash: Hasher, s: Sys, p: nat)
    requires p < |s.procs| && Enabled(hash, s, p) && s.procs[p].pc in {ScanLock, ScanRead, ScanData, ScanUnlock}
    ensures CameFrom(s.files, s.procs[p], Step(hash, s, p).procs[p])
  {
    hide RecSize, AllBlank, RecAt, DatAt;
  }

  lemma StepFrom(hash: Hasher, s: Sys, p: nat)
    requires p < |s.procs| && Enabled(hash, s, p)
    ensures |Step(hash, s, p).procs| == |s.procs| && CameFrom(s.files, s.procs[p], Step(hash, s, p).procs[p])
  {
    StepMoves(hash, s, p);
    hide CameFrom, Step;
    match s.procs[p].pc
    case LockChain | ReadHead | Examine | ReadData | InsHead | RepHead | Unlock => SearchFrom(hash, s, p);
    case LockFree | FreeHead | FreeExamine | FreeTake | FreeUnlock | ReuseData | ReuseRec => FreeFrom(hash, s, p);
    case LockDat | AppDat | UnlockDat | LockIdx | AppIdx | UnlockIdx | LinkHead | Overwrite => AppendFrom(hash, s, p);
    case DelLock | DelData | DelFree | DelRec | DelFreeHead | DelUnlink | DelUnlock => DeleteFrom(hash, s, p);
    case ScanLock | ScanRead | ScanData | ScanUnlock => ScanFrom(hash, s, p);
    case Idle => assert false;
  }
}
