/** The steps that take or release a lock, among them the release that commits an operation. */
module DbLockSteps {
  import opened Options
  import opened Seals
  import opened CText
  import opened DbFormat
  import opened DbFiles
  import opened DbEffects
  import opened DbBytes
  import opened DbSpec
  import opened DbProcesses
  import opened DbInvariant
  import opened DbSteps
  import opened DbSearchSteps

  lemma Locks(hash: Hasher, s: Sys)
    requires StandingOf(hash, s) == Firm
    ensures ChainLocks(hash, s) && OtherLocks(s)
  {
    hide StandingOf;
    Look(hash, s);
  }

  /** Process p moves, and only the lock on the free list changes with it, as its old and new place demand. */
  lemma FreeTurn(hash: Hasher, s: Sys, s': Sys, p: nat, me': Proc)
    requires StandingOf(hash, s) == Firm && p < |s.procs|
    requires s'.datApp == s.datApp && s'.idxApp == s.idxApp && s'.procs == s.procs[p := me']
    requires s'.free.writer == if HoldsFree(me'.pc) then Some(p) else if HoldsFree(s.procs[p].pc) then None
             else s.free.writer
    requires s'.free.readers == if Scans(me'.pc) then s.free.readers + {p} else s.free.readers - {p}
    requires HoldsFree(me'.pc) && !HoldsFree(s.procs[p].pc) ==> CanWrite(s.free)
    requires Scans(me'.pc) && !Scans(s.procs[p].pc) ==> CanRead(s.free)
    requires !(Scans(me'.pc) && HoldsFree(me'.pc))
    requires AppendsDat(me'.pc) == AppendsDat(s.procs[p].pc) && AppendsIdx(me'.pc) == AppendsIdx(s.procs[p].pc)
    ensures OtherLocksOf(s') == Firm
  {
    hide StandingOf;
    Locks(hash, s);
    AppendLocksKept(s, s', p);
    var shared, mine := FreeReader(s, p), FreeWriter(s, p);
    if s'.free.writer.Some? {
      assert s.free.writer.Some? || CanWrite(s.free);
      assert !Scans(me'.pc) && s'.free.readers == {};
    }
    forall q: nat ensures FreeReader(s', q) <==> q < |s'.procs| && Scans(s'.procs[q].pc) {
      var was := FreeReader(s, q);
    }
    forall q: nat ensures FreeWriter(s', q) <==> q < |s'.procs| && HoldsFree(s'.procs[q].pc) {
      var was, mine := FreeWriter(s, q), FreeWriter(s, p);
    }
  }

  /** The same for the two append locks. */
  lemma AppendTurn(hash: Hasher, s: Sys, s': Sys, p: nat, me': Proc)
    requires StandingOf(hash, s) == Firm && p < |s.procs| && s'.free == s.free && s'.procs == s.procs[p := me']
    requires HoldsFree(me'.pc) == HoldsFree(s.procs[p].pc) && Scans(me'.pc) == Scans(s.procs[p].pc)
    requires s'.datApp == if AppendsDat(me'.pc) then Some(p) else if AppendsDat(s.procs[p].pc) then None else s.datApp
    requires s'.idxApp == if AppendsIdx(me'.pc) then Some(p) else if AppendsIdx(s.procs[p].pc) then None else s.idxApp
    requires AppendsDat(me'.pc) && !AppendsDat(s.procs[p].pc) ==> s.datApp == None
    requires AppendsIdx(me'.pc) && !AppendsIdx(s.procs[p].pc) ==> s.idxApp == None
    ensures OtherLocksOf(s') == Firm
  {
    hide StandingOf;
    Locks(hash, s);
    FreeLocksKept(s, s', p);
    forall q: nat ensures DatHolder(s', q) <==> q < |s'.procs| && AppendsDat(s'.procs[q].pc) {
      var was, mine := DatHolder(s, q), DatHolder(s, p);
    }
    forall q: nat ensures IdxHolder(s', q) <==> q < |s'.procs| && AppendsIdx(s'.procs[q].pc) {
      var was, mine := IdxHolder(s, q), IdxHolder(s, p);
    }
  }

  lemma NotReading(hash: Hasher, s: Sys, p: nat)
    requires StandingOf(hash, s) == Firm && p < |s.procs| && !Scans(s.procs[p].pc)
    ensures s.free.readers == s.free.readers - {p}
  {
    hide StandingOf;
    Locks(hash, s);
    assert !FreeReader(s, p);
  }

  // What each of them asks of the process alone.

  lemma LockFreeTurns(hash: Hasher, f: Files, g: Shape, m: Entries, me: Proc, p: nat)
    requires Poise(hash, f, g, m, me, p) == Firm && me.pc == LockFree
    ensures Turning(hash, f, g, m, me, me.(pc := FreeHead), p) == Firm
  {
    assert Opened(true);
  }

  lemma FreeUnlockTurns(hash: Hasher, f: Files, g: Shape, m: Entries, me: Proc, p: nat)
    requires Poise(hash, f, g, m, me, p) == Firm && me.pc == FreeUnlock
    ensures Turning(hash, f, g, m, me, me.(pc := if me.off == 0 then LockDat else ReuseData), p) == Firm
  {
    assert Opened(true);
  }

  lemma DelLockTurns(hash: Hasher, f: Files, g: Shape, m: Entries, me: Proc, p: nat)
    requires Poise(hash, f, g, m, me, p) == Firm && me.pc == DelLock
    ensures Turning(hash, f, g, m, me, me.(pc := DelData), p) == Firm
  {
    assert Opened(true);
  }

  lemma DelUnlockLocal(hash: Hasher, f: Files, g: Shape, m: Entries, me: Proc, p: nat)
    requires Local(hash, f, g, m, me, p) && me.pc == DelUnlock
    ensures Local(hash, f, g, m, AfterDelete(me), p)
  {
  }

  lemma DelUnlockTurns(hash: Hasher, f: Files, g: Shape, m: Entries, me: Proc, p: nat)
    requires Poise(hash, f, g, m, me, p) == Firm && me.pc == DelUnlock
    ensures Turning(hash, f, g, m, me, AfterDelete(me), p) == Firm
  {
    hide Local;
    assert Opened(true);
    DelUnlockLocal(hash, f, g, m, me, p);
  }

  lemma ScanLockTurns(hash: Hasher, f: Files, g: Shape, m: Entries, me: Proc, p: nat)
    requires Poise(hash, f, g, m, me, p) == Firm && me.pc == ScanLock
    ensures Turning(hash, f, g, m, me, me.(pc := ScanRead), p) == Firm
  {
    assert Opened(true);
  }

  lemma ScanUnlockTurns(hash: Hasher, f: Files, g: Shape, m: Entries, me: Proc, p: nat)
    requires Poise(hash, f, g, m, me, p) == Firm && me.pc == ScanUnlock
    ensures Turning(hash, f, g, m, me, me.(pc := Idle), p) == Firm
  {
    assert Opened(true);
  }

  lemma LockDatTurns(hash: Hasher, f: Files, g: Shape, m: Entries, me: Proc, p: nat)
    requires Poise(hash, f, g, m, me, p) == Firm && me.pc == LockDat
    ensures Turning(hash, f, g, m, me, me.(pc := AppDat), p) == Firm
  {
    assert Opened(true);
  }

  lemma UnlockDatTurns(hash: Hasher, f: Files, g: Shape, m: Entries, me: Proc, p: nat)
    requires Poise(hash, f, g, m, me, p) == Firm && me.pc == UnlockDat
    ensures Turning(hash, f, g, m, me, me.(pc := LockIdx), p) == Firm
  {
    assert Opened(true);
  }

  lemma LockIdxTurns(hash: Hasher, f: Files, g: Shape, m: Entries, me: Proc, p: nat)
    requires Poise(hash, f, g, m, me, p) == Firm && me.pc == LockIdx
    ensures Turning(hash, f, g, m, me, me.(pc := AppIdx), p) == Firm
  {
    assert Opened(true);
  }

  lemma UnlockIdxTurns(hash: Hasher, f: Files, g: Shape, m: Entries, me: Proc, p: nat)
    requires Poise(hash, f, g, m, me, p) == Firm && me.pc == UnlockIdx
    ensures Turning(hash, f, g, m, me, me.(pc := LinkHead), p) == Firm
  {
    assert Opened(true);
  }

  lemma KeepsLockFree(hash: Hasher, s: Sys, p: nat)
    requires StandingOf(hash, s) == Firm && p < |s.procs| && s.procs[p].pc == LockFree && CanWrite(s.free)
    ensures StandingOf(hash, StepLockFree(s, p)) == Firm
  {
    hide StandingOf, Turning, Poise, OtherLocksOf;
    Poises(hash, s, p);
    var s' := StepLockFree(s, p);
    LockFreeTurns(hash, s.files, s.g, s.m, s.procs[p], p);
    NotReading(hash, s, p);
    FreeTurn(hash, s, s', p, s'.procs[p]);
    Turn(hash, s, s', p);
  }

  lemma KeepsFreeUnlock(hash: Hasher, s: Sys, p: nat)
    requires StandingOf(hash, s) == Firm && p < |s.procs| && s.procs[p].pc == FreeUnlock
    ensures StandingOf(hash, StepFreeUnlock(s, p)) == Firm
  {
    hide StandingOf, Turning, Poise, OtherLocksOf;
    Poises(hash, s, p);
    var s' := StepFreeUnlock(s, p);
    FreeUnlockTurns(hash, s.files, s.g, s.m, s.procs[p], p);
    NotReading(hash, s, p);
    FreeTurn(hash, s, s', p, s'.procs[p]);
    Turn(hash, s, s', p);
  }

  lemma KeepsDelLock(hash: Hasher, s: Sys, p: nat)
    requires StandingOf(hash, s) == Firm && p < |s.procs| && s.procs[p].pc == DelLock && CanWrite(s.free)
    ensures StandingOf(hash, StepDelLock(s, p)) == Firm
  {
    hide StandingOf, Turning, Poise, OtherLocksOf;
    Poises(hash, s, p);
    var s' := StepDelLock(s, p);
    DelLockTurns(hash, s.files, s.g, s.m, s.procs[p], p);
    NotReading(hash, s, p);
    FreeTurn(hash, s, s', p, s'.procs[p]);
    Turn(hash, s, s', p);
  }

  lemma KeepsDelUnlock(hash: Hasher, s: Sys, p: nat)
    requires StandingOf(hash, s) == Firm && p < |s.procs| && s.procs[p].pc == DelUnlock
    ensures StandingOf(hash, StepDelUnlock(s, p)) == Firm
  {
    hide StandingOf, Turning, Poise, OtherLocksOf;
    Poises(hash, s, p);
    var s' := StepDelUnlock(s, p);
    DelUnlockTurns(hash, s.files, s.g, s.m, s.procs[p], p);
    NotReading(hash, s, p);
    FreeTurn(hash, s, s', p, s'.procs[p]);
    Turn(hash, s, s', p);
  }

  lemma KeepsScanLock(hash: Hasher, s: Sys, p: nat)
    requires StandingOf(hash, s) == Firm && p < |s.procs| && s.procs[p].pc == ScanLock && CanRead(s.free)
    ensures StandingOf(hash, StepScanLock(s, p)) == Firm
  {
    hide StandingOf, Turning, Poise, OtherLocksOf;
    Poises(hash, s, p);
    var s' := StepScanLock(s, p);
    ScanLockTurns(hash, s.files, s.g, s.m, s.procs[p], p);
    FreeTurn(hash, s, s', p, s'.procs[p]);
    Turn(hash, s, s', p);
  }

  lemma KeepsScanUnlock(hash: Hasher, s: Sys, p: nat)
    requires StandingOf(hash, s) == Firm && p < |s.procs| && s.procs[p].pc == ScanUnlock
    ensures StandingOf(hash, StepScanUnlock(s, p)) == Firm
  {
    hide StandingOf, Turning, Poise, OtherLocksOf;
    Poises(hash, s, p);
    var s' := StepScanUnlock(s, p);
    ScanUnlockTurns(hash, s.files, s.g, s.m, s.procs[p], p);
    FreeTurn(hash, s, s', p, s'.procs[p]);
    Turn(hash, s, s', p);
  }

  lemma KeepsLockDat(hash: Hasher, s: Sys, p: nat)
    requires StandingOf(hash, s) == Firm && p < |s.procs| && s.procs[p].pc == LockDat && s.datApp == None
    ensures StandingOf(hash, StepLockDat(s, p)) == Firm
  {
    hide StandingOf, Turning, Poise, OtherLocksOf;
    Poises(hash, s, p);
    var s' := StepLockDat(s, p);
    LockDatTurns(hash, s.files, s.g, s.m, s.procs[p], p);
    AppendTurn(hash, s, s', p, s'.procs[p]);
    Turn(hash, s, s', p);
  }

  lemma KeepsUnlockDat(hash: Hasher, s: Sys, p: nat)
    requires StandingOf(hash, s) == Firm && p < |s.procs| && s.procs[p].pc == UnlockDat
    ensures StandingOf(hash, StepUnlockDat(s, p)) == Firm
  {
    hide StandingOf, Turning, Poise, OtherLocksOf;
    Poises(hash, s, p);
    var s' := StepUnlockDat(s, p);
    UnlockDatTurns(hash, s.files, s.g, s.m, s.procs[p], p);
    AppendTurn(hash, s, s', p, s'.procs[p]);
    Turn(hash, s, s', p);
  }

  lemma KeepsLockIdx(hash: Hasher, s: Sys, p: nat)
    requires StandingOf(hash, s) == Firm && p < |s.procs| && s.procs[p].pc == LockIdx && s.idxApp == None
    ensures StandingOf(hash, StepLockIdx(s, p)) == Firm
  {
    hide StandingOf, Turning, Poise, OtherLocksOf;
    Poises(hash, s, p);
    var s' := StepLockIdx(s, p);
    LockIdxTurns(hash, s.files, s.g, s.m, s.procs[p], p);
    AppendTurn(hash, s, s', p, s'.procs[p]);
    Turn(hash, s, s', p);
  }

  lemma KeepsUnlockIdx(hash: Hasher, s: Sys, p: nat)
    requires StandingOf(hash, s) == Firm && p < |s.procs| && s.procs[p].pc == UnlockIdx
    ensures StandingOf(hash, StepUnlockIdx(s, p)) == Firm
  {
    hide StandingOf, Turning, Poise, OtherLocksOf;
    Poises(hash, s, p);
    var s' := StepUnlockIdx(s, p);
    UnlockIdxTurns(hash, s.files, s.g, s.m, s.procs[p], p);
    AppendTurn(hash, s, s', p, s'.procs[p]);
    Turn(hash, s, s', p);
  }

  // ---- The chain lock ----

  lemma ChainTaken(hash: Hasher, s: Sys, p: nat)
    requires ChainLocks(hash, s) && p < |s.procs| && s.procs[p].pc == LockChain && Enabled(hash, s, p)
    ensures ChainLocks(hash, StepLockChain(hash, s, p))
  {
    var s' := StepLockChain(hash, s, p);
    forall h: nat, q: nat ensures Reader(s', h, q) <==> q < |s'.procs| && ReadsChain(hash, s'.procs[q], h) {
      var was := Reader(s, h, q);
    }
    forall h: nat, q: nat ensures Writer(s', h, q) <==> q < |s'.procs| && WritesChain(hash, s'.procs[q], h) {
      var was := Writer(s, h, q);
    }
    forall h: nat ensures ChainLock(s', h).writer.Some? ==> ChainLock(s', h).readers == {} {
      var was := ChainLock(s, h);
    }
  }

  lemma ChainReleased(hash: Hasher, s: Sys, s': Sys, p: nat)
    requires ChainLocks(hash, s) && p < |s.procs| && s.procs[p].pc == Unlock && s' == StepUnlock(hash, s, p)
    ensures ChainLocks(hash, s')
  {
    forall h: nat, q: nat ensures Reader(s', h, q) <==> q < |s'.procs| && ReadsChain(hash, s'.procs[q], h) {
      var was := Reader(s, h, q);
    }
    forall h: nat, q: nat ensures Writer(s', h, q) <==> q < |s'.procs| && WritesChain(hash, s'.procs[q], h) {
      var was, mine := Writer(s, h, q), Writer(s, h, p);
    }
    forall h: nat ensures ChainLock(s', h).writer.Some? ==> ChainLock(s', h).readers == {} {
      var was := ChainLock(s, h);
    }
  }

  lemma KeepsLockChain(hash: Hasher, s: Sys, p: nat)
    requires StandingOf(hash, s) == Firm && p < |s.procs| && s.procs[p].pc == LockChain && Enabled(hash, s, p)
    ensures StandingOf(hash, StepLockChain(hash, s, p)) == Firm
  {
    hide StandingOf;
    Knows(hash, s, p);
    var me := s.procs[p];
    var s' := StepLockChain(hash, s, p);
    Locks(hash, s);
    ChainTaken(hash, s, p);
    FreeLocksKept(s, s', p);
    AppendLocksKept(s, s', p);
    assert Poise(hash, s.files, s.g, s.m, s'.procs[p], p) == Firm && LocksOf(hash, s') == Firm;
    forall h: nat | h < NHASH && (WritesChain(hash, s.procs[p], h) || WritesChain(hash, s'.procs[p], h))
      ensures SameOnChain(hash, h, View(s, h), View(s', h))
    {
      OwnView(hash, s', p, h);
      var l := ChainLock(s, h);
    }
    Quiet(hash, s, s', p);
  }

  /** The history grows by one operation, and the map changes as a plain map would. */
  lemma HistoryGrows(s: Sys, op: Op, a: Answer)
    requires History(s) && a == MapAnswer(s.m, op)
    ensures History(s.(m := MapAfter(s.m, op), hist := s.hist + [op], answers := s.answers + [a]))
  {
    var n := |s.hist|;
    var hist := s.hist + [op];
    assert hist[..n] == s.hist;
    forall i | 0 <= i <= n ensures (s.answers + [a])[i] == MapAnswer(MapRun(hist[..i]), hist[i]) {
      if i < n { assert hist[..i] == s.hist[..i]; }
    }
  }

  lemma OtherChainsKeepMap(hash: Hasher, m: Entries, op: Op, h: nat)
    requires h != ChainOf(hash, op) || op.FetchOp?
    ensures SameOnChain(hash, h, m, MapAfter(m, op))
  {
  }

  /** The call that unlocks the chain commits the operation: its view of the chain becomes the map's. */
  lemma Commits(hash: Hasher, s: Sys, p: nat, h: nat)
    requires ChainLocks(hash, s) && p < |s.procs| && s.procs[p].pc == Unlock
    requires h < NHASH && WritesChain(hash, s.procs[p], h) && ChainView(hash, s, h)
    ensures ChainView(hash, StepUnlock(hash, s, p), h)
  {
    var s' := StepUnlock(hash, s, p);
    OwnView(hash, s, p, h);
    assert ChainLock(s', h).writer == None;
  }

  lemma UnlockLocks(hash: Hasher, s: Sys, p: nat)
    requires ChainLocks(hash, s) && OtherLocks(s) && p < |s.procs| && s.procs[p].pc == Unlock
    ensures ChainLocks(hash, StepUnlock(hash, s, p)) && OtherLocks(StepUnlock(hash, s, p))
  {
    var s' := StepUnlock(hash, s, p);
    ChainReleased(hash, s, s', p);
    FreeLocksKept(s, s', p);
    AppendLocksKept(s, s', p);
  }

  lemma UnlockHistory(hash: Hasher, s: Sys, p: nat)
    requires StandingOf(hash, s) == Firm && p < |s.procs| && s.procs[p].pc == Unlock
    ensures History(StepUnlock(hash, s, p))
  {
    hide StandingOf, Walking, Stands, Storing, Succeeds, Pending, RecAt;
    Knows(hash, s, p);
    assert History(s) by { Look(hash, s); }
    HistoryGrows(s, s.procs[p].op, s.procs[p].res);
  }

  lemma UnlockWorld(hash: Hasher, s: Sys, p: nat)
    requires StandingOf(hash, s) == Firm && p < |s.procs| && s.procs[p].pc == Unlock
    ensures World(hash, StepUnlock(hash, s, p)) == Firm
  {
    hide StandingOf;
    UnlockHistory(hash, s, p);
    Look(hash, s);
    UnlockLocks(hash, s, p);
  }

  lemma UnlockHoldings(hash: Hasher, s: Sys, p: nat)
    requires StandingOf(hash, s) == Firm && p < |s.procs| && s.procs[p].pc == Unlock
    ensures Holdings(StepUnlock(hash, s, p)) == Firm
  {
    hide StandingOf;
    Look(hash, s);
    OwnedKept(s, StepUnlock(hash, s, p), p);
  }

  lemma UnlockConduct(hash: Hasher, s: Sys, p: nat)
    requires StandingOf(hash, s) == Firm && p < |s.procs| && s.procs[p].pc == Unlock
    ensures Conduct(hash, s, StepUnlock(hash, s, p), p) == Firm
  {
    hide StandingOf;
    Look(hash, s);
    var me, s' := s.procs[p], StepUnlock(hash, s, p);
    SparesAll(hash, me, p, s.files, s.g);
    forall h: nat | !WritesChain(hash, me, h) ensures SameOnChain(hash, h, s.m, s'.m) {
      OtherChainsKeepMap(hash, s.m, me.op, h);
    }
    forall h: nat | h < NHASH && WritesChain(hash, me, h) ensures ChainView(hash, s', h) {
      assert ChainView(hash, s, h);
      Commits(hash, s, p, h);
    }
  }

  lemma KeepsUnlock(hash: Hasher, s: Sys, p: nat)
    requires StandingOf(hash, s) == Firm && p < |s.procs| && s.procs[p].pc == Unlock
    ensures StandingOf(hash, StepUnlock(hash, s, p)) == Firm
  {
    hide StandingOf;
    UnlockWorld(hash, s, p);
    UnlockHoldings(hash, s, p);
    UnlockConduct(hash, s, p);
    Keep(hash, s, StepUnlock(hash, s, p), p);
  }
}
