/**
 What holds between any two steps of any number of processes on one database. A deletion is unlinked from its
 chain, in the bookkeeping, as soon as it begins to write; `Logical` in DbInterleaving says how the files
 of that moment differ from the ones these predicates speak of.
 */
module DbInvariant {
  import opened Options
  import opened CText
  import opened DbFormat
  import opened DbFiles
  import opened DbEffects
  import opened DbBytes
  import opened DbSpec
  import opened DbProcesses

  // ---- Locks a process holds, told by its next call ----

  predicate HoldsChain(pc: Pc) {
    match pc
    case Idle | LockChain | ScanLock | ScanRead | ScanData | ScanUnlock => false
    case _ => true
  }

  predicate HoldsFree(pc: Pc) {
    match pc
    case FreeHead | FreeExamine | FreeTake | FreeUnlock => true
    case DelData | DelFree | DelRec | DelFreeHead | DelUnlink | DelUnlock => true
    case _ => false
  }

  predicate Scans(pc: Pc) { pc == ScanRead || pc == ScanData || pc == ScanUnlock }

  predicate AppendsDat(pc: Pc) { pc == AppDat || pc == UnlockDat }

  predicate AppendsIdx(pc: Pc) { pc == AppIdx || pc == UnlockIdx }

  predicate ReadsChain(hash: Hasher, me: Proc, h: nat) {
    HoldsChain(me.pc) && me.op.FetchOp? && ChainOf(hash, me.op) == h
  }

  predicate WritesChain(hash: Hasher, me: Proc, h: nat) {
    HoldsChain(me.pc) && !me.op.FetchOp? && ChainOf(hash, me.op) == h
  }

  predicate Reader(s: Sys, h: nat, q: nat) { q in ChainLock(s, h).readers }

  predicate Writer(s: Sys, h: nat, q: nat) { ChainLock(s, h).writer == Some(q) }

  /** The lock table of the chains says exactly what the processes' positions say. */
  ghost predicate ChainLocks(hash: Hasher, s: Sys) {
    && (forall h: nat, q: nat {:trigger Reader(s, h, q)} ::
          Reader(s, h, q) <==> q < |s.procs| && ReadsChain(hash, s.procs[q], h))
    && (forall h: nat, q: nat {:trigger Writer(s, h, q)} ::
          Writer(s, h, q) <==> q < |s.procs| && WritesChain(hash, s.procs[q], h))
    && (forall h: nat {:trigger ChainLock(s, h)} :: ChainLock(s, h).writer.Some? ==> ChainLock(s, h).readers == {})
  }

  predicate FreeReader(s: Sys, q: nat) { q in s.free.readers }

  predicate FreeWriter(s: Sys, q: nat) { s.free.writer == Some(q) }

  predicate DatHolder(s: Sys, q: nat) { s.datApp == Some(q) }

  predicate IdxHolder(s: Sys, q: nat) { s.idxApp == Some(q) }

  ghost predicate FreeLocks(s: Sys) {
    && (forall q: nat {:trigger FreeReader(s, q)} :: FreeReader(s, q) <==> q < |s.procs| && Scans(s.procs[q].pc))
    && (forall q: nat {:trigger FreeWriter(s, q)} :: FreeWriter(s, q) <==> q < |s.procs| && HoldsFree(s.procs[q].pc))
    && (s.free.writer.Some? ==> s.free.readers == {})
  }

  ghost predicate AppendLocks(s: Sys) {
    && (forall q: nat {:trigger DatHolder(s, q)} :: DatHolder(s, q) <==> q < |s.procs| && AppendsDat(s.procs[q].pc))
    && (forall q: nat {:trigger IdxHolder(s, q)} :: IdxHolder(s, q) <==> q < |s.procs| && AppendsIdx(s.procs[q].pc))
  }

  ghost predicate OtherLocks(s: Sys) { FreeLocks(s) && AppendLocks(s) }

  // ---- What a process knows ----

  function Chain(hash: Hasher, g: Shape, me: Proc): seq<nat> {
    var k := 1 + ChainOf(hash, me.op);
    if k < |g.lists| then g.lists[k] else []
  }

  function Free(g: Shape): seq<nat> { if FREE < |g.lists| then g.lists[FREE] else [] }

  ghost predicate Passed(f: Files, xs: seq<nat>, pos: nat, key: CString) {
    forall j :: 0 <= j < pos && j < |xs| ==> xs[j] in f.recs && f.recs[xs[j]].key != key
  }

  /** The process has come to element `pos` of list k, or to its end. */
  ghost predicate Walking(k: nat, xs: seq<nat>, me: Proc) {
    me.pos <= |xs| && me.ptroff == Node(k, xs, me.pos) && me.off == Elem(xs, me.pos)
  }

  /** The process has read that element. */
  ghost predicate Stands(f: Files, k: nat, xs: seq<nat>, me: Proc) {
    me.pos < |xs| && Walking(k, xs, me) && me.off in f.recs && f.recs[me.off] == me.rec
  }

  /** A deletion under way: the slot it still has to write, and what it will write there. */
  ghost predicate Bridging(k: nat, xs: seq<nat>, me: Proc) {
    me.pos <= |xs| && me.ptroff == Node(k, xs, me.pos) && me.rec.ptr == Elem(xs, me.pos)
  }

  ghost predicate Mine(f: Files, g: Shape, o: nat, p: nat) {
    o in f.recs && o in g.owner && g.owner[o] == Priv(p)
  }

  /** A record taken from the free list, of the right sizes, not yet rewritten. */
  ghost predicate Spare(f: Files, g: Shape, me: Proc, p: nat) {
    && Mine(f, g, me.off, p)
    && var r := f.recs[me.off];
    && AllBlank(r.key) && |r.key| == |KeyOf(me.op)|
    && r.datoff == me.rec.datoff && r.datlen == me.rec.datlen == |DataOf(me.op)| + 1
  }

  ghost predicate Written(f: Files, a: nat, data: CString) { a in f.dat && f.dat[a] == data }

  /** A finished record that only has to be linked. */
  ghost predicate Ready(f: Files, g: Shape, xs: seq<nat>, me: Proc, p: nat) {
    && Mine(f, g, me.off, p)
    && var r := f.recs[me.off];
    r.key == KeyOf(me.op) && r.ptr == Elem(xs, 0) && Written(f, r.datoff, DataOf(me.op))
  }

  ghost predicate OwnExtent(g: Shape, a: nat, p: nat) { a in g.extents && g.extents[a] == ByProcess(p) }

  /** The operation changes the map, and returns 0. */
  predicate Succeeds(m: Entries, op: Op) { !op.FetchOp? && MapAnswer(m, op) == Rc(0) }

  ghost predicate Storing(m: Entries, xs: seq<nat>, me: Proc) {
    me.op.StoreOp? && Succeeds(m, me.op) && me.ptr == Elem(xs, 0)
  }

  ghost predicate ScanSees(f: Files, g: Shape, me: Proc) {
    && me.off in f.recs && me.off in g.owner && g.owner[me.off] != FREE
    && f.recs[me.off].key == me.rec.key && f.recs[me.off].datoff == me.rec.datoff
    && f.recs[me.off].datlen == me.rec.datlen
    && !AllBlank(me.rec.key)
  }

  ghost predicate Local(hash: Hasher, f: Files, g: Shape, m: Entries, me: Proc, p: nat) {
    var k := 1 + ChainOf(hash, me.op);
    var xs, fs, key, data := Chain(hash, g, me), Free(g), KeyOf(me.op), DataOf(me.op);
    match me.pc
    case ReadHead => me.ptroff == Slot(k)
    case Examine => Walking(k, xs, me) && Passed(f, xs, me.pos, key)
    case ReadData => me.op.FetchOp? && Stands(f, k, xs, me) && me.rec.key == key
    case InsHead => me.op.StoreOp? && Succeeds(m, me.op)
    case LockFree | FreeHead => Storing(m, xs, me)
    case FreeExamine => Storing(m, xs, me) && Walking(FREE, fs, me)
    case FreeTake =>
      Storing(m, xs, me) && Stands(f, FREE, fs, me) && |me.rec.key| == |key| && me.rec.datlen == |data| + 1
    case FreeUnlock => Storing(m, xs, me) && (me.off != 0 ==> Spare(f, g, me, p))
    case ReuseData => Storing(m, xs, me) && Spare(f, g, me, p)
    case ReuseRec => Storing(m, xs, me) && Spare(f, g, me, p) && Written(f, me.rec.datoff, data)
    case LockDat | AppDat => Storing(m, xs, me)
    case UnlockDat | LockIdx | AppIdx => Storing(m, xs, me) && Written(f, me.datoff, data) && OwnExtent(g, me.datoff, p)
    case UnlockIdx | LinkHead => me.op.StoreOp? && Succeeds(m, me.op) && Ready(f, g, xs, me, p)
    case Overwrite =>
      me.op.StoreOp? && Succeeds(m, me.op) && Stands(f, k, xs, me) && me.rec.key == key && me.rec.datlen == |data| + 1
    case DelLock | DelData => Succeeds(m, me.op) && Stands(f, k, xs, me) && me.rec.key == key
    case DelFree =>
      && Succeeds(m, me.op) && Bridging(k, xs, me) && Mine(f, g, me.off, p)
      && f.recs[me.off] == me.rec && Wiped(f, f.recs[me.off].datoff)
    case DelRec =>
      && Succeeds(m, me.op) && Bridging(k, xs, me) && Mine(f, g, me.off, p)
      && f.recs[me.off] == me.rec && Wiped(f, f.recs[me.off].datoff) && me.free == Elem(fs, 0)
    case DelFreeHead =>
      && Succeeds(m, me.op) && Bridging(k, xs, me) && Mine(f, g, me.off, p)
      && f.recs[me.off].ptr == Elem(fs, 0) && AllBlank(f.recs[me.off].key) && Wiped(f, f.recs[me.off].datoff)
    case DelUnlink => Succeeds(m, me.op) && Bridging(k, xs, me)
    case DelUnlock => Succeeds(m, me.op)
    case RepHead => me.op.StoreOp? && Succeeds(m, me.op)
    case Unlock => me.res == MapAnswer(m, me.op)
    case ScanData => ScanSees(f, g, me)
    case _ => true
  }

  // ---- Private records and extents ----

  /** The record that belongs to no list because this process is storing or deleting it. */
  function Loose(me: Proc): Option<nat> {
    match me.pc
    case FreeUnlock => if me.off == 0 then None else Some(me.off)
    case ReuseData | ReuseRec | LinkHead | UnlockIdx => Some(me.off)
    case DelFree | DelRec | DelFreeHead => Some(me.off)
    case _ => None
  }

  function LooseData(me: Proc): Option<nat> {
    match me.pc
    case UnlockDat | LockIdx | AppIdx => Some(me.datoff)
    case _ => None
  }

  ghost predicate Accounted(s: Sys, o: nat)
    requires o in s.g.owner
  {
    var w := s.g.owner[o];
    w < NLIST || (w - NLIST < |s.procs| && Loose(s.procs[w - NLIST]) == Some(o))
  }

  ghost predicate AccountedData(s: Sys, a: nat)
    requires a in s.g.extents
  {
    match s.g.extents[a]
    case ByProcess(q) => q < |s.procs| && LooseData(s.procs[q]) == Some(a)
    case InRecord(_) => true
  }

  // ---- The map ----

  /** Between the call that takes the old entry off its chain and the one that links the new record,
      the chain lacks the key; once that call is made it has what the operation leaves. */
  predicate KeyAway(pc: Pc) {
    match pc
    case InsHead | LockFree | FreeHead | FreeExamine | FreeTake | FreeUnlock | ReuseData | ReuseRec => true
    case LockDat | AppDat | UnlockDat | LockIdx | AppIdx | UnlockIdx | LinkHead => true
    case DelFree | DelRec | DelFreeHead | DelUnlink | DelUnlock | RepHead => true
    case _ => false
  }

  function Pending(me: Proc, m: Entries): Entries {
    if me.pc == Unlock then MapAfter(m, me.op)
    else if KeyAway(me.pc) then m - {KeyOf(me.op)}
    else m
  }

  /** What chain h stands for: the committed map, but for the operation of the process that has it locked. */
  function View(s: Sys, h: nat): Entries {
    match ChainLock(s, h).writer
    case Some(q) => if q < |s.procs| then Pending(s.procs[q], s.m) else s.m
    case None => s.m
  }

  ghost predicate ChainView(hash: Hasher, s: Sys, h: nat) {
    1 + h < |s.g.lists| && Agrees(hash, s.files, s.g.lists[1 + h], h, View(s, h))
  }

  ghost predicate History(s: Sys) {
    s.m == MapRun(s.hist) && |s.answers| == |s.hist| && MapAnswers(s.hist, s.answers)
  }

  // ---- The invariant ----

  ghost predicate Structure(hash: Hasher, f: Files, g: Shape) {
    InTable(hash) && Sound(f, g) && FreeBlank(f, g) && Tiled(f) && Disjoint(f)
  }

  ghost predicate Locals(hash: Hasher, s: Sys) {
    forall q {:trigger Local(hash, s.files, s.g, s.m, s.procs[q], q)} ::
      0 <= q < |s.procs| ==> Local(hash, s.files, s.g, s.m, s.procs[q], q)
  }

  ghost predicate CallsMade(s: Sys) {
    forall q {:trigger s.procs[q]} :: 0 <= q < |s.procs| ==>
      AtRecord(s.files, s.procs[q].cursor) && (s.procs[q].op.StoreOp? ==> s.procs[q].op.flag != BadFlag)
  }

  ghost predicate Owned(s: Sys) {
    && (forall o {:trigger Accounted(s, o)} :: o in s.g.owner ==> Accounted(s, o))
    && (forall a {:trigger AccountedData(s, a)} :: a in s.g.extents ==> AccountedData(s, a))
  }

  ghost predicate Views(hash: Hasher, s: Sys) {
    forall h: nat {:trigger ChainView(hash, s, h)} :: h < NHASH ==> ChainView(hash, s, h)
  }

  ghost predicate Steady(hash: Hasher, s: Sys) {
    && Structure(hash, s.files, s.g) && ChainLocks(hash, s) && OtherLocks(s) && Locals(hash, s) && CallsMade(s)
    && Owned(s) && Views(hash, s) && History(s)
  }

  lemma LocksAtStart(hash: Hasher, n: nat)
    ensures ChainLocks(hash, Init(n)) && OtherLocks(Init(n))
  {
    var s := Init(n);
    assert forall q :: 0 <= q < n ==> s.procs[q].pc == Idle;
  }

  lemma FilesAtStart(hash: Hasher, n: nat)
    requires InTable(hash)
    ensures Structure(hash, Init(n).files, Init(n).g) && Views(hash, Init(n))
  {
    EmptyKept(hash);
  }

  lemma SteadyAtStart(hash: Hasher, n: nat)
    requires InTable(hash)
    ensures Steady(hash, Init(n))
  {
    LocksAtStart(hash, n);
    FilesAtStart(hash, n);
  }

  // ---- What one process leaves alone for the others ----

  /** May a process in this place change list k? */
  predicate MayWrite(hash: Hasher, me: Proc, k: nat) {
    (k == FREE && HoldsFree(me.pc)) || (k > 0 && WritesChain(hash, me, k - 1))
  }

  ghost predicate SameRecord(f: Files, f': Files, o: nat) {
    && o in f.recs && o in f'.recs && f'.recs[o] == f.recs[o]
    && (f.recs[o].datoff in f.dat ==> f.recs[o].datoff in f'.dat && f'.dat[f.recs[o].datoff] == f.dat[f.recs[o].datoff])
  }

  ghost predicate Foreign(hash: Hasher, me: Proc, p: nat, g: Shape, o: nat) {
    o in g.owner && g.owner[o] != Priv(p) && !MayWrite(hash, me, g.owner[o])
  }

  ghost predicate ListsSpared(hash: Hasher, me: Proc, g: Shape, g': Shape) {
    && |g'.lists| == |g.lists|
    && forall k {:trigger g'.lists[k]} {:trigger g.lists[k]} ::
         0 <= k < |g.lists| && !MayWrite(hash, me, k) ==> g'.lists[k] == g.lists[k]
  }

  ghost predicate RecordsSpared(hash: Hasher, me: Proc, p: nat, f: Files, g: Shape, f': Files, g': Shape) {
    forall o {:trigger Foreign(hash, me, p, g, o)} {:trigger SameRecord(f, f', o)} ::
      o in f.recs && Foreign(hash, me, p, g, o) ==>
      o in g'.owner && g'.owner[o] == g.owner[o] && SameRecord(f, f', o)
  }

  ghost predicate ExtentsSpared(p: nat, f: Files, g: Shape, f': Files, g': Shape) {
    forall a: nat, q: nat {:trigger OwnExtent(g, a, q)} :: q != p && OwnExtent(g, a, q) ==>
      OwnExtent(g', a, q) && (a in f.dat ==> a in f'.dat && f'.dat[a] == f.dat[a])
  }

  /** A process that does not hold the free list leaves every record with a real key with that key and extent,
      and off the free list. */
  ghost predicate ScansSpared(me: Proc, f: Files, g: Shape, f': Files, g': Shape) {
    !HoldsFree(me.pc) ==>
      forall o {:trigger f'.recs[o]} {:trigger f.recs[o]} ::
        o in f.recs && o in g.owner && g.owner[o] != FREE && !AllBlank(f.recs[o].key) ==>
        && o in f'.recs && o in g'.owner && g'.owner[o] != FREE
        && f'.recs[o].key == f.recs[o].key && f'.recs[o].datoff == f.recs[o].datoff
        && f'.recs[o].datlen == f.recs[o].datlen
  }

  ghost predicate Spares(hash: Hasher, me: Proc, p: nat, f: Files, g: Shape, f': Files, g': Shape) {
    && ListsSpared(hash, me, g, g') && RecordsSpared(hash, me, p, f, g, f', g')
    && ExtentsSpared(p, f, g, f', g') && ScansSpared(me, f, g, f', g')
  }

  /** Two processes' positions exclude each other as the locks make them. */
  ghost predicate Compatible(hash: Hasher, me: Proc, you: Proc) {
    && (HoldsChain(you.pc) ==> !WritesChain(hash, me, ChainOf(hash, you.op)))
    && (HoldsFree(you.pc) || Scans(you.pc) ==> !HoldsFree(me.pc))
  }

  lemma Exclusive(hash: Hasher, s: Sys, p: nat, q: nat)
    requires ChainLocks(hash, s) && OtherLocks(s) && p < |s.procs| && q < |s.procs| && p != q
    ensures Compatible(hash, s.procs[p], s.procs[q])
  {
    var me, you := s.procs[p], s.procs[q];
    var h := ChainOf(hash, you.op);
    var mine, yours, shared := Writer(s, h, p), Writer(s, h, q), Reader(s, h, q);
    assert mine ==> !yours && !shared;
    var w, w', r' := FreeWriter(s, p), FreeWriter(s, q), FreeReader(s, q);
    assert w ==> !w' && !r';
  }

  lemma ListSpared(hash: Hasher, me: Proc, p: nat, f: Files, g: Shape, f': Files, g': Shape, k: nat)
    requires Sound(f, g) && k < NLIST && !MayWrite(hash, me, k) && Spares(hash, me, p, f, g, f', g')
    ensures |g'.lists| == NLIST && g'.lists[k] == g.lists[k]
    ensures forall o {:trigger SameRecord(f, f', o)} :: o in g.lists[k] ==> SameRecord(f, f', o)
  {
    forall o | o in g.lists[k] ensures SameRecord(f, f', o) {
      var j :| 0 <= j < |g.lists[k]| && g.lists[k][j] == o;
      assert Foreign(hash, me, p, g, o);
    }
  }

  lemma MineSpared(hash: Hasher, me: Proc, p: nat, f: Files, g: Shape, f': Files, g': Shape, o: nat, q: nat)
    requires Sound(f, g) && Spares(hash, me, p, f, g, f', g') && q != p && Mine(f, g, o, q)
    requires InTable(hash)
    ensures Mine(f', g', o, q) && SameRecord(f, f', o)
  {
    assert Foreign(hash, me, p, g, o);
  }

  lemma SameAnswer(hash: Hasher, m: Entries, m': Entries, op: Op)
    requires SameOnChain(hash, ChainOf(hash, op), m, m')
    ensures MapAnswer(m', op) == MapAnswer(m, op)
  {
    assert hash(KeyOf(op)) == ChainOf(hash, op);
  }

  ghost predicate SameRecords(f: Files, f': Files, xs: seq<nat>) {
    forall o {:trigger SameRecord(f, f', o)} :: o in xs ==> SameRecord(f, f', o)
  }

  /** What a process knows depends on the lists it has locked and on its own record and extent only. */
  lemma LocalFrame(hash: Hasher, f: Files, g: Shape, m: Entries, f': Files, g': Shape, m': Entries, you: Proc, q: nat)
    requires Local(hash, f, g, m, you, q)
    requires HoldsChain(you.pc) ==>
             Chain(hash, g', you) == Chain(hash, g, you) && SameRecords(f, f', Chain(hash, g, you))
                                    && MapAnswer(m', you.op) == MapAnswer(m, you.op)
    requires HoldsFree(you.pc) ==> Free(g') == Free(g) && SameRecords(f, f', Free(g))
    requires Loose(you).Some? && Mine(f, g, you.off, q) ==>
               Mine(f', g', you.off, q) && SameRecord(f, f', you.off)
    requires LooseData(you).Some? && OwnExtent(g, you.datoff, q) ==>
               OwnExtent(g', you.datoff, q)
                 && (you.datoff in f.dat ==> you.datoff in f'.dat && f'.dat[you.datoff] == f.dat[you.datoff])
    requires you.pc == ScanData && ScanSees(f, g, you) ==> ScanSees(f', g', you)
    ensures Local(hash, f', g', m', you, q)
  {
    match you.pc
    case Examine => PassedFrame(f, f', Chain(hash, g, you), you.pos, KeyOf(you.op));
    case ReadData | Overwrite | DelLock | DelData => assert SameRecord(f, f', you.off);
    case FreeTake => assert SameRecord(f, f', you.off);
    case _ =>
  }

  lemma PassedFrame(f: Files, f': Files, xs: seq<nat>, pos: nat, key: CString)
    requires Passed(f, xs, pos, key) && SameRecords(f, f', xs)
    ensures Passed(f', xs, pos, key)
  {
    forall j | 0 <= j < pos && j < |xs| ensures xs[j] in f'.recs && f'.recs[xs[j]].key != key {
      assert SameRecord(f, f', xs[j]);
    }
  }

  /** What a process knows survives a step of another one. */
  lemma LocalSpared(hash: Hasher, me: Proc, p: nat, f: Files, g: Shape, m: Entries, f': Files, g': Shape, m': Entries,
                    you: Proc, q: nat)
    requires InTable(hash) && Sound(f, g) && p != q && Compatible(hash, me, you)
    requires Local(hash, f, g, m, you, q) && Spares(hash, me, p, f, g, f', g')
    requires HoldsChain(you.pc) ==> SameOnChain(hash, ChainOf(hash, you.op), m, m')
    ensures Local(hash, f', g', m', you, q)
  {
    var k := 1 + ChainOf(hash, you.op);
    if HoldsChain(you.pc) {
      ListSpared(hash, me, p, f, g, f', g', k);
      SameAnswer(hash, m, m', you.op);
    }
    if HoldsFree(you.pc) { ListSpared(hash, me, p, f, g, f', g', FREE); }
    if Mine(f, g, you.off, q) { MineSpared(hash, me, p, f, g, f', g', you.off, q); }
    LocalFrame(hash, f, g, m, f', g', m', you, q);
  }
}
