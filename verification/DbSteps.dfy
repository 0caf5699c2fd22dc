/** Every step of every process keeps the invariant: one lemma for each kind of step. */
module DbSteps {
  import opened Options
  import opened Seals
  import opened CText
  import opened DbFormat
  import opened DbFiles
  import opened DbEffects
  import opened DbBytes
  import opened DbSpec
  import opened DbProcesses
  import opened DbInvariant

  /** The invariant, sealed. */
  ghost function StandingOf(hash: Hasher, s: Sys): Standing {
    if forall t {:trigger Opened(t)} :: Opened(t) ==> Steady(hash, s) then Firm else Shaken
  }

  lemma Look(hash: Hasher, s: Sys)
    requires StandingOf(hash, s) == Firm
    ensures Steady(hash, s)
  {
    assert Opened(true);
  }

  // ---- One process moves ----

  ghost predicate Moved(s: Sys, s': Sys, p: nat) {
    p < |s.procs| == |s'.procs| && forall q :: 0 <= q < |s.procs| && q != p ==> s'.procs[q] == s.procs[q]
  }

  lemma SamePending(hash: Hasher, h: nat, you: Proc, m: Entries, m': Entries)
    requires SameOnChain(hash, h, m, m')
    ensures SameOnChain(hash, h, Pending(you, m), Pending(you, m'))
  {
  }

  /** The view of a chain that p has not locked for writing is what it was. */
  lemma OtherView(hash: Hasher, s: Sys, s': Sys, p: nat, h: nat)
    requires ChainLocks(hash, s) && ChainLocks(hash, s') && Moved(s, s', p)
    requires !WritesChain(hash, s.procs[p], h) && !WritesChain(hash, s'.procs[p], h)
    requires SameOnChain(hash, h, s.m, s'.m)
    ensures SameOnChain(hash, h, View(s, h), View(s', h))
  {
    match ChainLock(s, h).writer {
      case Some(q) =>
        var here, there := Writer(s, h, q), Writer(s', h, q);
        SamePending(hash, h, s.procs[q], s.m, s'.m);
      case None =>
        match ChainLock(s', h).writer {
          case Some(q) => var here, there := Writer(s, h, q), Writer(s', h, q);
          case None =>
        }
    }
  }

  lemma OtherChain(hash: Hasher, s: Sys, s': Sys, p: nat, h: nat)
    requires Structure(hash, s.files, s.g) && ChainView(hash, s, h) && Moved(s, s', p)
    requires Spares(hash, s.procs[p], p, s.files, s.g, s'.files, s'.g)
    requires h < NHASH && !WritesChain(hash, s.procs[p], h) && SameOnChain(hash, h, View(s, h), View(s', h))
    ensures ChainView(hash, s', h)
  {
    var me := s.procs[p];
    ListSpared(hash, me, p, s.files, s.g, s'.files, s'.g, 1 + h);
    var xs := s.g.lists[1 + h];
    forall o | o in xs ensures SameEntry(s.files, s'.files, o) { assert SameRecord(s.files, s'.files, o); }
    AgreesFrame(hash, s.files, s'.files, xs, h, View(s, h), View(s', h));
  }

  lemma LocalsKept(hash: Hasher, s: Sys, s': Sys, p: nat)
    requires Structure(hash, s.files, s.g) && ChainLocks(hash, s) && OtherLocks(s) && Locals(hash, s) && Moved(s, s', p)
    requires Spares(hash, s.procs[p], p, s.files, s.g, s'.files, s'.g)
    requires Local(hash, s'.files, s'.g, s'.m, s'.procs[p], p)
    requires forall h: nat {:trigger SameOnChain(hash, h, s.m, s'.m)} ::
               !WritesChain(hash, s.procs[p], h) ==> SameOnChain(hash, h, s.m, s'.m)
    ensures Locals(hash, s')
  {
    forall q | 0 <= q < |s'.procs| ensures Local(hash, s'.files, s'.g, s'.m, s'.procs[q], q) {
      if q != p {
        var you := s.procs[q];
        Exclusive(hash, s, p, q);
        assert Local(hash, s.files, s.g, s.m, you, q);
        if HoldsChain(you.pc) { assert SameOnChain(hash, ChainOf(hash, you.op), s.m, s'.m); }
        LocalSpared(hash, s.procs[p], p, s.files, s.g, s.m, s'.files, s'.g, s'.m, you, q);
      }
    }
  }

  ghost predicate MapSpared(hash: Hasher, s: Sys, s': Sys, p: nat)
    requires p < |s.procs|
  {
    forall h: nat {:trigger SameOnChain(hash, h, s.m, s'.m)} ::
      !WritesChain(hash, s.procs[p], h) ==> SameOnChain(hash, h, s.m, s'.m)
  }

  ghost predicate OwnChainView(hash: Hasher, s: Sys, s': Sys, p: nat)
    requires p < |s.procs| == |s'.procs|
  {
    forall h: nat {:trigger ChainView(hash, s', h)} ::
      h < NHASH && (WritesChain(hash, s.procs[p], h) || WritesChain(hash, s'.procs[p], h)) ==> ChainView(hash, s', h)
  }

  /** What has to be shown of the new state as a whole, of the private records in it, and of what p changed. */
  ghost function World(hash: Hasher, s: Sys): Standing {
    if forall t {:trigger Opened(t)} :: Opened(t) ==>
         Structure(hash, s.files, s.g) && ChainLocks(hash, s) && OtherLocks(s) && CallsMade(s) && History(s)
    then Firm else Shaken
  }

  ghost function Holdings(s: Sys): Standing {
    if forall t {:trigger Opened(t)} :: Opened(t) ==> Owned(s) then Firm else Shaken
  }

  ghost function Conduct(hash: Hasher, s: Sys, s': Sys, p: nat): Standing {
    if Moved(s, s', p) && forall t {:trigger Opened(t)} :: Opened(t) ==>
         && Spares(hash, s.procs[p], p, s.files, s.g, s'.files, s'.g)
         && Local(hash, s'.files, s'.g, s'.m, s'.procs[p], p)
         && MapSpared(hash, s, s', p) && OwnChainView(hash, s, s', p)
    then Firm else Shaken
  }

  /** The rest follows from the locks. */
  lemma Keep(hash: Hasher, s: Sys, s': Sys, p: nat)
    requires StandingOf(hash, s) == Firm
    requires World(hash, s') == Firm && Holdings(s') == Firm && Conduct(hash, s, s', p) == Firm
    ensures StandingOf(hash, s') == Firm
  {
    assert Opened(true);
    LocalsKept(hash, s, s', p);
    forall h: nat | h < NHASH ensures ChainView(hash, s', h) {
      if !WritesChain(hash, s.procs[p], h) && !WritesChain(hash, s'.procs[p], h) {
        assert ChainView(hash, s, h) && SameOnChain(hash, h, s.m, s'.m);
        OtherView(hash, s, s', p, h);
        OtherChain(hash, s, s', p, h);
      }
    }
  }

  // ---- Steps that change neither the files nor the map ----

  ghost predicate SameHold(me: Proc, me': Proc) {
    && HoldsChain(me'.pc) == HoldsChain(me.pc) && (HoldsChain(me.pc) ==> me'.op == me.op)
    && HoldsFree(me'.pc) == HoldsFree(me.pc) && Scans(me'.pc) == Scans(me.pc)
    && AppendsDat(me'.pc) == AppendsDat(me.pc) && AppendsIdx(me'.pc) == AppendsIdx(me.pc)
  }

  ghost predicate SameLocks(s: Sys, s': Sys) {
    s'.chain == s.chain && s'.free == s.free && s'.datApp == s.datApp && s'.idxApp == s.idxApp
  }

  lemma ChainLocksKept(hash: Hasher, s: Sys, s': Sys, p: nat)
    requires ChainLocks(hash, s) && Moved(s, s', p) && s'.chain == s.chain
    requires HoldsChain(s'.procs[p].pc) == HoldsChain(s.procs[p].pc)
    requires HoldsChain(s.procs[p].pc) ==> s'.procs[p].op == s.procs[p].op
    ensures ChainLocks(hash, s')
  {
    forall h: nat, q: nat ensures Reader(s', h, q) <==> q < |s'.procs| && ReadsChain(hash, s'.procs[q], h) {
      assert Reader(s', h, q) == Reader(s, h, q);
    }
    forall h: nat, q: nat ensures Writer(s', h, q) <==> q < |s'.procs| && WritesChain(hash, s'.procs[q], h) {
      assert Writer(s', h, q) == Writer(s, h, q);
    }
    forall h: nat ensures ChainLock(s', h).writer.Some? ==> ChainLock(s', h).readers == {} {
      assert ChainLock(s', h) == ChainLock(s, h);
    }
  }

  lemma LocksKept(hash: Hasher, s: Sys, s': Sys, p: nat)
    requires ChainLocks(hash, s) && OtherLocks(s) && Moved(s, s', p)
    requires SameLocks(s, s') && SameHold(s.procs[p], s'.procs[p])
    ensures ChainLocks(hash, s') && OtherLocks(s')
  {
    ChainLocksKept(hash, s, s', p);
    FreeLocksKept(s, s', p);
    AppendLocksKept(s, s', p);
  }

  lemma FreeLocksKept(s: Sys, s': Sys, p: nat)
    requires FreeLocks(s) && Moved(s, s', p) && s'.free == s.free
    requires HoldsFree(s'.procs[p].pc) == HoldsFree(s.procs[p].pc) && Scans(s'.procs[p].pc) == Scans(s.procs[p].pc)
    ensures FreeLocks(s')
  {
    forall q: nat ensures FreeReader(s', q) <==> q < |s'.procs| && Scans(s'.procs[q].pc) {
      assert FreeReader(s', q) == FreeReader(s, q);
    }
    forall q: nat ensures FreeWriter(s', q) <==> q < |s'.procs| && HoldsFree(s'.procs[q].pc) {
      assert FreeWriter(s', q) == FreeWriter(s, q);
    }
  }

  lemma AppendLocksKept(s: Sys, s': Sys, p: nat)
    requires AppendLocks(s) && Moved(s, s', p) && s'.datApp == s.datApp && s'.idxApp == s.idxApp
    requires AppendsDat(s'.procs[p].pc) == AppendsDat(s.procs[p].pc)
             && AppendsIdx(s'.procs[p].pc) == AppendsIdx(s.procs[p].pc)
    ensures AppendLocks(s')
  {
    forall q: nat ensures DatHolder(s', q) <==> q < |s'.procs| && AppendsDat(s'.procs[q].pc) {
      assert DatHolder(s', q) == DatHolder(s, q);
    }
    forall q: nat ensures IdxHolder(s', q) <==> q < |s'.procs| && AppendsIdx(s'.procs[q].pc) {
      assert IdxHolder(s', q) == IdxHolder(s, q);
    }
  }

  ghost predicate SameWorld(s: Sys, s': Sys) {
    s'.files == s.files && s'.g == s.g && s'.m == s.m && s'.hist == s.hist && s'.answers == s.answers
  }

  lemma OwnedKept(s: Sys, s': Sys, p: nat)
    requires Owned(s) && Moved(s, s', p) && s'.g == s.g
    requires Loose(s'.procs[p]) == Loose(s.procs[p]) && LooseData(s'.procs[p]) == LooseData(s.procs[p])
    ensures Owned(s')
  {
    forall o | o in s'.g.owner ensures Accounted(s', o) { assert Accounted(s, o); }
    forall a | a in s'.g.extents ensures AccountedData(s', a) { assert AccountedData(s, a); }
  }

  lemma SparesAll(hash: Hasher, me: Proc, p: nat, f: Files, g: Shape)
    requires RecordsPlaced(f, g)
    ensures Spares(hash, me, p, f, g, f, g)
  {
  }

  ghost predicate OwnViewKept(hash: Hasher, s: Sys, s': Sys, p: nat)
    requires p < |s.procs| == |s'.procs|
  {
    forall h: nat {:trigger View(s', h)} ::
      h < NHASH && (WritesChain(hash, s.procs[p], h) || WritesChain(hash, s'.procs[p], h)) ==>
        SameOnChain(hash, h, View(s, h), View(s', h))
  }

  lemma QuietHoldings(hash: Hasher, s: Sys, s': Sys, p: nat)
    requires StandingOf(hash, s) == Firm && Moved(s, s', p) && SameWorld(s, s')
    requires Loose(s'.procs[p]) == Loose(s.procs[p]) && LooseData(s'.procs[p]) == LooseData(s.procs[p])
    ensures Holdings(s') == Firm
  {
    hide StandingOf;
    Look(hash, s);
    OwnedKept(s, s', p);
  }

  /** Between two steps a process knows this much of itself. */
  ghost predicate Poised(hash: Hasher, f: Files, g: Shape, m: Entries, me: Proc, p: nat) {
    Local(hash, f, g, m, me, p) && AtRecord(f, me.cursor) && (me.op.StoreOp? ==> me.op.flag != BadFlag)
  }

  /** A process goes from one place to another, and what it has in its hands stays. */
  ghost predicate Turns(hash: Hasher, f: Files, g: Shape, m: Entries, me: Proc, me': Proc, p: nat) {
    && HoldsChain(me'.pc) == HoldsChain(me.pc) && (HoldsChain(me.pc) ==> me'.op == me.op)
    && Poised(hash, f, g, m, me', p) && Loose(me') == Loose(me) && LooseData(me') == LooseData(me)
    && Pending(me', m) == Pending(me, m)
  }

  /** The same, with no lock taken or left. */
  ghost predicate Ambles(hash: Hasher, f: Files, g: Shape, m: Entries, me: Proc, me': Proc, p: nat) {
    Turns(hash, f, g, m, me, me', p) && SameHold(me, me')
  }

  ghost function Poise(hash: Hasher, f: Files, g: Shape, m: Entries, me: Proc, p: nat): Standing {
    if forall t {:trigger Opened(t)} :: Opened(t) ==> Poised(hash, f, g, m, me, p) then Firm else Shaken
  }

  ghost function Turning(hash: Hasher, f: Files, g: Shape, m: Entries, me: Proc, me': Proc, p: nat): Standing {
    if forall t {:trigger Opened(t)} :: Opened(t) ==> Turns(hash, f, g, m, me, me', p) then Firm else Shaken
  }

  ghost function Ambling(hash: Hasher, f: Files, g: Shape, m: Entries, me: Proc, me': Proc, p: nat): Standing {
    if forall t {:trigger Opened(t)} :: Opened(t) ==> Ambles(hash, f, g, m, me, me', p) then Firm else Shaken
  }

  ghost function LocksOf(hash: Hasher, s: Sys): Standing {
    if forall t {:trigger Opened(t)} :: Opened(t) ==> ChainLocks(hash, s) && OtherLocks(s) then Firm else Shaken
  }

  lemma QuietWorld(hash: Hasher, s: Sys, s': Sys, p: nat)
    requires StandingOf(hash, s) == Firm && Moved(s, s', p) && SameWorld(s, s') && LocksOf(hash, s') == Firm
    requires Poise(hash, s.files, s.g, s.m, s'.procs[p], p) == Firm
    ensures World(hash, s') == Firm
  {
    assert Opened(true);
  }

  lemma QuietConduct(hash: Hasher, s: Sys, s': Sys, p: nat)
    requires StandingOf(hash, s) == Firm && Moved(s, s', p) && SameWorld(s, s')
    requires Poise(hash, s.files, s.g, s.m, s'.procs[p], p) == Firm
    requires OwnViewKept(hash, s, s', p)
    ensures Conduct(hash, s, s', p) == Firm
  {
    assert Opened(true);
    SparesAll(hash, s.procs[p], p, s.files, s.g);
    forall h: nat | h < NHASH && (WritesChain(hash, s.procs[p], h) || WritesChain(hash, s'.procs[p], h))
      ensures ChainView(hash, s', h)
    {
      assert ChainView(hash, s, h);
      forall o | o in s.g.lists[1 + h] ensures SameEntry(s.files, s'.files, o) {}
      AgreesFrame(hash, s.files, s'.files, s.g.lists[1 + h], h, View(s, h), View(s', h));
    }
  }

  /** A step that only moves the process and perhaps a lock. */
  lemma Quiet(hash: Hasher, s: Sys, s': Sys, p: nat)
    requires StandingOf(hash, s) == Firm && Moved(s, s', p) && SameWorld(s, s') && LocksOf(hash, s') == Firm
    requires Poise(hash, s.files, s.g, s.m, s'.procs[p], p) == Firm
    requires Loose(s'.procs[p]) == Loose(s.procs[p]) && LooseData(s'.procs[p]) == LooseData(s.procs[p])
    requires OwnViewKept(hash, s, s', p)
    ensures StandingOf(hash, s') == Firm
  {
    hide StandingOf;
    QuietWorld(hash, s, s', p);
    QuietHoldings(hash, s, s', p);
    QuietConduct(hash, s, s', p);
    Keep(hash, s, s', p);
  }

  lemma OwnView(hash: Hasher, s: Sys, p: nat, h: nat)
    requires ChainLocks(hash, s) && p < |s.procs| && WritesChain(hash, s.procs[p], h)
    ensures View(s, h) == Pending(s.procs[p], s.m)
  {
    assert Writer(s, h, p);
  }

  ghost function OtherLocksOf(s: Sys): Standing {
    if forall t {:trigger Opened(t)} :: Opened(t) ==> OtherLocks(s) then Firm else Shaken
  }

  /** A step that does not touch a chain lock. */
  lemma Turn(hash: Hasher, s: Sys, s': Sys, p: nat)
    requires StandingOf(hash, s) == Firm && Moved(s, s', p) && SameWorld(s, s') && s'.chain == s.chain
    requires OtherLocksOf(s') == Firm && Turning(hash, s.files, s.g, s.m, s.procs[p], s'.procs[p], p) == Firm
    ensures StandingOf(hash, s') == Firm
  {
    var me, me' := s.procs[p], s'.procs[p];
    assert Turns(hash, s.files, s.g, s.m, me, me', p) by { assert Opened(true); }
    assert ChainLocks(hash, s) by { Look(hash, s); }
    ChainLocksKept(hash, s, s', p);
    assert LocksOf(hash, s') == Firm by { assert Opened(true); }
    forall h: nat | h < NHASH && (WritesChain(hash, me, h) || WritesChain(hash, me', h))
      ensures SameOnChain(hash, h, View(s, h), View(s', h))
    {
      OwnView(hash, s, p, h);
      OwnView(hash, s', p, h);
    }
    Quiet(hash, s, s', p);
  }

  /** A quiet step that takes and leaves no lock. */
  lemma Stroll(hash: Hasher, s: Sys, s': Sys, p: nat, me': Proc)
    requires StandingOf(hash, s) == Firm && p < |s.procs| && s' == Set(s, p, me')
    requires Ambling(hash, s.files, s.g, s.m, s.procs[p], me', p) == Firm
    ensures StandingOf(hash, s') == Firm
  {
    assert SameHold(s.procs[p], me') by { assert Opened(true); }
    assert Turning(hash, s.files, s.g, s.m, s.procs[p], me', p) == Firm by { assert Opened(true); }
    assert FreeLocks(s) && AppendLocks(s) by { Look(hash, s); }
    FreeLocksKept(s, s', p);
    AppendLocksKept(s, s', p);
    assert OtherLocksOf(s') == Firm;
    Turn(hash, s, s', p);
  }

  // ---- Steps that write ----

  /** The state after a write by p: the files and the bookkeeping change, the locks do not. */
  function Wrote(s: Sys, f': Files, g': Shape, p: nat, me': Proc): Sys
    requires p < |s.procs|
  {
    Set(s.(files := f', g := g'), p, me')
  }

  ghost predicate SameSizes(f: Files, f': Files) {
    && f'.recs.Keys == f.recs.Keys && f'.idxEnd == f.idxEnd
    && forall o :: o in f.recs ==> RecSize(f'.recs[o]) == RecSize(f.recs[o])
  }

  lemma SameSizesPlaces(f: Files, f': Files)
    requires Tiled(f) && SameSizes(f, f')
    ensures Tiled(f') && PlacesKept(f, f')
  {
    TiledSame(f, f');
    assert forall o :: o in f'.recs <==> o in f.recs;
  }

  ghost predicate PlacesKept(f: Files, f': Files) {
    forall o {:trigger AtRecord(f', o)} :: AtRecord(f, o) ==> AtRecord(f', o)
  }

  lemma WroteWorld(hash: Hasher, s: Sys, f': Files, g': Shape, p: nat, me': Proc)
    requires StandingOf(hash, s) == Firm && p < |s.procs| && SameHold(s.procs[p], me')
    requires Structure(hash, f', g') && PlacesKept(s.files, f')
    requires me'.op == s.procs[p].op && me'.cursor == s.procs[p].cursor
    ensures World(hash, Wrote(s, f', g', p, me')) == Firm
  {
    hide StandingOf, Structure, ChainLocks, OtherLocks;
    Look(hash, s);
    LocksKept(hash, s, Wrote(s, f', g', p, me'), p);
  }

  /** The records and extents that are p's alone, before and after a write. */
  ghost predicate OwnSettled(g: Shape, g': Shape, p: nat, me: Proc, me': Proc) {
    && (forall o {:trigger g'.owner[o]} :: o in g'.owner && g'.owner[o] >= NLIST ==>
          if g'.owner[o] == Priv(p) then Loose(me') == Some(o) else o in g.owner && g.owner[o] == g'.owner[o])
    && (forall a: nat, q: nat {:trigger OwnExtent(g', a, q)} :: OwnExtent(g', a, q) ==>
          if q == p then LooseData(me') == Some(a) else OwnExtent(g, a, q))
  }

  lemma WroteHoldings(hash: Hasher, s: Sys, f': Files, g': Shape, p: nat, me': Proc)
    requires StandingOf(hash, s) == Firm && p < |s.procs|
    requires OwnSettled(s.g, g', p, s.procs[p], me')
    ensures Holdings(Wrote(s, f', g', p, me')) == Firm
  {
    hide StandingOf;
    assert Owned(s) by { Look(hash, s); }
    var s' := Wrote(s, f', g', p, me');
    forall o | o in g'.owner ensures Accounted(s', o) {
      if g'.owner[o] >= NLIST && g'.owner[o] != Priv(p) { assert Accounted(s, o); }
    }
    forall a | a in g'.extents ensures AccountedData(s', a) {
      match g'.extents[a]
      case ByProcess(q) =>
        assert OwnExtent(g', a, q);
        if q != p { assert AccountedData(s, a); }
      case InRecord(_) =>
    }
  }

  lemma WroteConduct(hash: Hasher, s: Sys, f': Files, g': Shape, p: nat, me': Proc)
    requires StandingOf(hash, s) == Firm && p < |s.procs| && SameHold(s.procs[p], me') && me'.op == s.procs[p].op
    requires Spares(hash, s.procs[p], p, s.files, s.g, f', g')
    requires Local(hash, f', g', s.m, me', p)
    requires WritesChain(hash, me', ChainOf(hash, me'.op)) ==>
               var h := ChainOf(hash, me'.op);
               1 + h < |g'.lists| && Agrees(hash, f', g'.lists[1 + h], h, Pending(me', s.m))
    ensures Conduct(hash, s, Wrote(s, f', g', p, me'), p) == Firm
  {
    hide StandingOf;
    var s' := Wrote(s, f', g', p, me');
    assert ChainLocks(hash, s') by { Look(hash, s); LocksKept(hash, s, s', p); }
    forall h: nat | h < NHASH && (WritesChain(hash, s.procs[p], h) || WritesChain(hash, me', h))
      ensures ChainView(hash, s', h)
    {
      OwnView(hash, s', p, h);
    }
  }
}
