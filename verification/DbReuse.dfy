/**
 When a store among other processes writes over old data, takes a free record, or lets the files grow.
 */
module DbReuse {
  import opened Options
  import opened Seals
  import opened CText
  import opened DbFormat
  import opened DbFiles
  import opened DbBytes
  import opened DbSpec
  import opened DbProcesses
  import opened DbInvariant
  import opened DbSteps
  import opened DbSearchSteps
  import opened DbLockSteps
  import opened DbMoves
  import opened DbInterleaving
  import opened DbRunBytes

  // ---- The search of the free list ----

  /** A record that the new one of this store could be written over. */
  predicate Fits(r: Rec, op: Op) { |r.key| == |KeyOf(op)| && r.datlen == |DataOf(op)| + 1 }

  /** None of the first n free records fits. */
  ghost predicate NoneFits(s: Sys, n: nat, op: Op) {
    forall j {:trigger Free(s.g)[j]} :: 0 <= j < n && j < |Free(s.g)| ==>
      Free(s.g)[j] in s.files.recs && !Fits(s.files.recs[Free(s.g)[j]], op)
  }

  /** What a process has seen of the free list it has locked. */
  ghost predicate Looked(s: Sys, p: nat)
    requires p < |s.procs|
  {
    var me := s.procs[p];
    match me.pc
    case FreeExamine | FreeTake => NoneFits(s, me.pos, me.op)
    case FreeUnlock => me.off == 0 ==> NoneFits(s, |Free(s.g)|, me.op)
    case _ => true
  }

  lemma NoneFitsFrame(s: Sys, s': Sys, n: nat, op: Op)
    requires NoneFits(s, n, op) && Free(s'.g) == Free(s.g)
    requires forall o :: o in s.files.recs ==> o in s'.files.recs && SameLengths(s.files.recs[o], s'.files.recs[o])
    ensures NoneFits(s', n, op)
  {
    forall j | 0 <= j < n && j < |Free(s'.g)|
      ensures Free(s'.g)[j] in s'.files.recs && !Fits(s'.files.recs[Free(s'.g)[j]], op)
    {
      assert Free(s.g)[j] in s.files.recs;
    }
  }

  lemma OthersLooked(hash: Hasher, s: Sys, s': Sys, p: nat, q: nat)
    requires InOrder(hash, s) && p < |s.procs| && q < |s.procs| && q != p && NextOf(hash, s, s', q) && Looked(s, p)
    ensures p < |s'.procs| && Looked(s', p)
  {
    hide InOrder, Step, NextOf;
    ChainFrozen(hash, s, s', q, p);
    var recs := s.files.recs;
    forall o | o in recs ensures o in s'.files.recs && SameLengths(recs[o], s'.files.recs[o]) {
      OneStepSizes(hash, s, s', o);
    }
    if s.procs[p].pc in {FreeExamine, FreeTake} || (s.procs[p].pc == FreeUnlock && s.procs[p].off == 0) {
      NoneFitsFrame(s, s', if s.procs[p].pc == FreeUnlock then |Free(s.g)| else s.procs[p].pos, s.procs[p].op);
    }
  }

  /** Where the walk stands. */
  lemma FreeWalk(hash: Hasher, s: Sys, p: nat)
    requires InOrder(hash, s) && p < |s.procs| && s.procs[p].pc in {FreeExamine, FreeTake}
    ensures var me, fs := s.procs[p], Free(s.g);
            && me.pos <= |fs| && (me.off == 0 <==> me.pos == |fs|)
            && (me.pos < |fs| ==> me.off == fs[me.pos] && me.off in s.files.recs)
            && (me.pc == FreeTake ==> me.pos < |fs|)
  {
    hide StandingOf, Logical, SetPtr;
    var t, me := Logical(s), s.procs[p];
    BridgedSame(s);
    assert Walking(FREE, Free(t.g), me) && |t.g.lists| == NLIST && (me.pc == FreeTake ==> me.pos < |Free(t.g)|) by {
      Knows(hash, t, p);
    }
    StepOn(hash, t, FREE, me.pos);
  }

  lemma OwnLook(hash: Hasher, s: Sys, p: nat)
    requires InOrder(hash, s) && p < |s.procs| && s.procs[p].pc in {FreeExamine, FreeTake} && Looked(s, p)
    ensures Looked(Step(hash, s, p), p)
  {
    FreeWalk(hash, s, p);
    hide InOrder, SetPtr, Unlinked;
    if s.procs[p].pc == FreeExamine {
      assert Step(hash, s, p).files == s.files && Step(hash, s, p).g == s.g;
    }
  }

  lemma OwnLooked(hash: Hasher, s: Sys, p: nat)
    requires InOrder(hash, s) && p < |s.procs| && Enabled(hash, s, p) && Looked(s, p)
    ensures p < |Step(hash, s, p).procs| && Looked(Step(hash, s, p), p)
  {
    hide InOrder, Step;
    StepFrom(hash, s, p);
    if s.procs[p].pc in {FreeExamine, FreeTake} { OwnLook(hash, s, p); }
  }

  // ---- The entry a store writes over ----

  /** What a store in this place has found of its key in the map, which no other call touches meanwhile. */
  ghost predicate Met(s: Sys, p: nat)
    requires p < |s.procs|
  {
    var me, key := s.procs[p], s.procs[p].op.key;
    me.op.StoreOp? ==>
      && (NewKey(me.pc) ==> key !in s.m)
      && (Replaces(me.pc) ==> key in s.m && |s.m[key]| != |me.op.data|)
      && (Grows(me.pc) && key in s.m ==> |s.m[key]| != |me.op.data|)
      && (me.pc == Overwrite ==> key in s.m && |s.m[key]| == |me.op.data|)
  }

  lemma HitLength(hash: Hasher, s: Sys, p: nat)
    requires StandingOf(hash, s) == Firm && p < |s.procs| && s.procs[p].pc == Examine && s.procs[p].off != 0
    requires RecAt(s.files, s.procs[p].off).key == KeyOf(s.procs[p].op)
    ensures var key := KeyOf(s.procs[p].op);
            key in s.m && RecAt(s.files, s.procs[p].off).datlen == |s.m[key]| + 1
  {
    hide StandingOf;
    HeldFact(hash, s);
    SearchView(hash, s, p);
    HitKey(hash, s, p);
    assert Walking(1 + ChainOf(hash, s.procs[p].op), Chain(hash, s.g, s.procs[p]), s.procs[p]) by { Knows(hash, s, p); }
    assert s.procs[p].off in s.g.lists[1 + ChainOf(hash, s.procs[p].op)];
  }

  lemma BridgedLengths(s: Sys, o: nat)
    ensures RecAt(Logical(s).files, o).key == RecAt(s.files, o).key
    ensures RecAt(Logical(s).files, o).datlen == RecAt(s.files, o).datlen
  {
    if Cutter(s).Some? && o in s.files.recs {
      var q := Cutter(s).value;
      SetPtrKeeps(s.files, s.procs[q].ptroff, s.procs[q].rec.ptr, o);
    }
  }

  lemma OwnMet(hash: Hasher, s: Sys, p: nat)
    requires InOrder(hash, s) && p < |s.procs| && Enabled(hash, s, p) && Met(s, p)
    ensures p < |Step(hash, s, p).procs| && Met(Step(hash, s, p), p)
  {
    hide StandingOf, Step;
    StepFrom(hash, s, p);
    StepMoves(hash, s, p);
    var t, me := Logical(s), s.procs[p];
    BridgedSame(s);
    BridgedLengths(s, me.off);
    hide Logical;
    if me.pc == Examine {
      if me.off == 0 { MissedKey(hash, t, p); }
      else if RecAt(t.files, me.off).key == KeyOf(me.op) { HitLength(hash, t, p); }
    }
  }

  /** Who has a chain locked for a store shares it with no other call that changes the map. */
  lemma OthersMap(hash: Hasher, s: Sys, s': Sys, p: nat, q: nat)
    requires InOrder(hash, s) && p < |s.procs| && q < |s.procs| && q != p && NextOf(hash, s, s', q)
    requires HoldsChain(s.procs[p].pc)
    ensures var key := s.procs[p].op.key; (key in s'.m <==> key in s.m) && (key in s.m ==> s'.m[key] == s.m[key])
  {
    hide StandingOf, Step;
    var me, you := s.procs[q], s.procs[p];
    CommitsAtUnlock(hash, s, s', q);
    if me.pc == Unlock {
      assert s'.m == MapAfter(s.m, me.op) by { UnlockMap(hash, s, q); }
      Locks(hash, Logical(s));
      BridgedSame(s);
      Exclusive(hash, Logical(s), q, p);
      assert me.op.FetchOp? || me.op.key != you.op.key;
      match me.op
      case StoreOp(key, data, flag) => StoreMeans(s.m, key, data, flag);
      case _ => OthersMean(s.m, me.op.key);
    }
  }

  lemma UnlockMap(hash: Hasher, s: Sys, q: nat)
    requires q < |s.procs| && s.procs[q].pc == Unlock
    ensures Enabled(hash, s, q) && Step(hash, s, q).m == MapAfter(s.m, s.procs[q].op)
  {
  }

  lemma OthersMet(hash: Hasher, s: Sys, s': Sys, p: nat, q: nat)
    requires InOrder(hash, s) && p < |s.procs| && q < |s.procs| && q != p && NextOf(hash, s, s', q) && Met(s, p)
    ensures p < |s'.procs| && Met(s', p)
  {
    hide InOrder, Step, NextOf;
    ChainFrozen(hash, s, s', q, p);
    if HoldsChain(s.procs[p].pc) { OthersMap(hash, s, s', p, q); }
  }

  // ---- Every run ----

  lemma OneMet(hash: Hasher, s: Sys, s': Sys, p: nat)
    requires InOrder(hash, s) && Next(hash, s, s') && p < |s.procs| && Looked(s, p) && Met(s, p)
    ensures p < |s'.procs| && Looked(s', p) && Met(s', p)
  {
    hide InOrder, Step, Looked, Met;
    var q: nat :| q < |s.procs| && NextOf(hash, s, s', q);
    if q != p {
      hide NextOf;
      OthersLooked(hash, s, s', p, q);
      OthersMet(hash, s, s', p, q);
    } else if Enabled(hash, s, p) && s' == Step(hash, s, p) {
      OwnLooked(hash, s, p);
      OwnMet(hash, s, p);
    } else {
      assert s'.procs[p].pc in {Idle, LockChain, ScanLock};
      NothingYet(s', p);
    }
  }

  lemma NothingYet(s: Sys, p: nat)
    requires p < |s.procs| && s.procs[p].pc in {Idle, LockChain, ScanLock}
    ensures Looked(s, p) && Met(s, p)
  {
  }

  lemma {:induction false} Followed(hash: Hasher, n: nat, run: seq<Sys>, x: nat, p: nat)
    requires InTable(hash) && Run(hash, n, run) && x < |run| && p < |run[x].procs|
    ensures Looked(run[x], p) && Met(run[x], p)
  {
    if x == 0 {
      NothingYet(run[0], p);
    } else {
      hide InOrder, Next, Run, InTable, Looked, Met;
      StepAt(hash, n, run, x);
      SameProcs(hash, run[x - 1], run[x]);
      Followed(hash, n, run, x - 1, p);
      OneMet(hash, run[x - 1], run[x], p);
    }
  }

  /** In every run: a store writes over the old data only if the new is as long, and deletes the record only if it is
      not; it writes over a free record only if that has just its lengths;
        and it lets the files grow only for a key that
      is absent, or whose data has another length. */
  lemma WaysOfStoring(hash: Hasher, n: nat, run: seq<Sys>, x: nat, p: nat)
    requires InTable(hash) && Run(hash, n, run) && x < |run| && p < |run[x].procs| && run[x].procs[p].op.StoreOp?
    ensures var (m, f, me) := (run[x].m, run[x].files, run[x].procs[p]);
            var (key, data) := (me.op.key, me.op.data);
            && (me.pc == Overwrite ==> key in m && |m[key]| == |data|)
            && (Replaces(me.pc) ==> key in m && |m[key]| != |data|)
            && (me.pc == ReuseData ==> key !in m && me.off in f.recs && Fits(f.recs[me.off], me.op))
            && (Grows(me.pc) ==> key !in m || |m[key]| != |data|)
  {
    hide InOrder, Run;
    Followed(hash, n, run, x, p);
    RunInOrder(hash, n, run, x);
    if run[x].procs[p].pc == ReuseData { SpareFits(hash, run[x], p); }
  }

  lemma SpareFits(hash: Hasher, s: Sys, p: nat)
    requires InOrder(hash, s) && p < |s.procs| && s.procs[p].pc == ReuseData
    ensures s.procs[p].off in s.files.recs && Fits(s.files.recs[s.procs[p].off], s.procs[p].op)
  {
    hide StandingOf;
    var t := Logical(s);
    BridgedSame(s);
    BridgedLengths(s, s.procs[p].off);
    assert Spare(t.files, t.g, t.procs[p], p) by { Knows(hash, t, p); }
  }

  /** When a store sets out to let the files grow, either its key has data of another length, or its key is absent and
      the whole free list, which it still has locked, holds no record of its lengths. */
  lemma GrowsOnlyIfItMust(hash: Hasher, n: nat, run: seq<Sys>, x: nat, p: nat)
    requires InTable(hash) && Run(hash, n, run) && x + 1 < |run| && p < |run[x].procs|
    requires NextOf(hash, run[x], run[x + 1], p) && run[x + 1].procs[p].pc == LockDat != run[x].procs[p].pc
    ensures var (s, op) := (run[x], run[x].procs[p].op);
            && op.StoreOp?
            && if op.key in s.m then |s.m[op.key]| != |op.data|
               else HoldsFree(s.procs[p].pc) && forall o :: o in Free(s.g) ==>
                 o in s.files.recs && !Fits(s.files.recs[o], op)
  {
    hide InOrder, Run, Step, Enabled;
    var s := run[x];
    Followed(hash, n, run, x, p);
    RunInOrder(hash, n, run, x);
    assert Enabled(hash, s, p) && run[x + 1] == Step(hash, s, p);
    StepFrom(hash, s, p);
    assert s.procs[p].op.StoreOp? by { Storers(hash, s, p); }
  }

  lemma Storers(hash: Hasher, s: Sys, p: nat)
    requires InOrder(hash, s) && p < |s.procs| && s.procs[p].pc in {FreeUnlock, RepHead}
    ensures s.procs[p].op.StoreOp?
  {
    hide StandingOf;
    Knows(hash, Logical(s), p);
  }

  /** Nothing else lets a file grow. */
  lemma OnlyAppendsGrow(hash: Hasher, s: Sys, p: nat)
    requires p < |s.procs| && Enabled(hash, s, p)
    ensures var f' := Step(hash, s, p).files;
            && (f'.idxEnd != s.files.idxEnd ==> s.procs[p].pc == AppIdx)
            && (f'.datEnd != s.files.datEnd ==> s.procs[p].pc == AppDat)
  {
    StepFiles(hash, s, p);
    hide Step, Blanks, ChainOf, KeyOf, DataOf;
  }
}
