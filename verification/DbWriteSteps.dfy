/** The steps that write to the files. */
module DbWriteSteps {
  import opened Options
  import opened Seals
  import opened CText
  import opened DbFormat
  import opened DbFiles
  import opened DbEffects
  import opened DbBytes
  import opened DbSpec
  import opened DbProcesses
  import opened DbInvariant
  import opened DbSteps
  import opened DbSearchSteps

  /** What a writing process knows of the files, and of its chain. */
  ghost predicate Before(hash: Hasher, f: Files, g: Shape, m: Entries, me: Proc, p: nat) {
    && Structure(hash, f, g) && Local(hash, f, g, m, me, p) && HoldsChain(me.pc) && !me.op.FetchOp?
    && ChainAgreesWith(hash, f, g, me, m) && OwnOnly(g, p, me)
  }

  /** The records and extents the bookkeeping gives to p are those that p has in hand. */
  ghost predicate OwnOnly(g: Shape, p: nat, me: Proc) {
    && (forall o {:trigger g.owner[o]} :: o in g.owner && g.owner[o] == Priv(p) ==> Loose(me) == Some(o))
    && (forall a: nat {:trigger OwnExtent(g, a, p)} :: OwnExtent(g, a, p) ==> LooseData(me) == Some(a))
  }

  ghost predicate ChainAgreesWith(hash: Hasher, f: Files, g: Shape, me: Proc, m: Entries) {
    var h := ChainOf(hash, me.op);
    1 + h < |g.lists| && Agrees(hash, f, g.lists[1 + h], h, Pending(me, m))
  }

  lemma OwnOnlyOf(hash: Hasher, s: Sys, p: nat)
    requires StandingOf(hash, s) == Firm && p < |s.procs|
    ensures OwnOnly(s.g, p, s.procs[p])
  {
    hide StandingOf;
    assert Owned(s) by { Look(hash, s); }
    forall o | o in s.g.owner && s.g.owner[o] == Priv(p)
      ensures Loose(s.procs[p]) == Some(o)
    {
      assert Accounted(s, o);
    }
    forall a: nat | OwnExtent(s.g, a, p) ensures LooseData(s.procs[p]) == Some(a) { assert AccountedData(s, a); }
  }

  lemma ChainOfWriter(hash: Hasher, s: Sys, p: nat)
    requires StandingOf(hash, s) == Firm && p < |s.procs| && HoldsChain(s.procs[p].pc) && !s.procs[p].op.FetchOp?
    ensures ChainAgreesWith(hash, s.files, s.g, s.procs[p], s.m)
  {
    hide StandingOf;
    var h := ChainOf(hash, s.procs[p].op);
    assert ChainLocks(hash, s) && ChainView(hash, s, h) by {
      Look(hash, s);
      assert ChainView(hash, s, h);
    }
    OwnView(hash, s, p, h);
  }

  lemma BeforeWrite(hash: Hasher, s: Sys, p: nat)
    requires StandingOf(hash, s) == Firm && p < |s.procs| && HoldsChain(s.procs[p].pc) && !s.procs[p].op.FetchOp?
    ensures BeforeOf(hash, s.files, s.g, s.m, s.procs[p], p) == Firm
  {
    hide StandingOf;
    Knows(hash, s, p);
    assert Structure(hash, s.files, s.g) by { Look(hash, s); }
    OwnOnlyOf(hash, s, p);
    ChainOfWriter(hash, s, p);
  }

  /** The places in which a process is about to write. */
  predicate Writes(pc: Pc) {
    match pc
    case FreeTake | ReuseData | ReuseRec | AppDat | AppIdx | LinkHead | Overwrite => true
    case DelData | DelRec | DelFreeHead => true
    case _ => false
  }

  // The five things there are to show of a write, each a value that is looked into only where it is shown.

  /** The new files are in order, and record boundaries stay. */
  ghost function Sturdy(hash: Hasher, f: Files, f': Files, g': Shape): Standing {
    if forall t {:trigger Opened(t)} :: Opened(t) ==> Structure(hash, f', g') && PlacesKept(f, f') then Firm else Shaken
  }

  ghost function Settled(g: Shape, g': Shape, p: nat, me: Proc, me': Proc): Standing {
    if forall t {:trigger Opened(t)} :: Opened(t) ==> OwnSettled(g, g', p, me, me') then Firm else Shaken
  }

  ghost function Sparing(hash: Hasher, me: Proc, p: nat, f: Files, g: Shape, f': Files, g': Shape): Standing {
    if forall t {:trigger Opened(t)} :: Opened(t) ==> Spares(hash, me, p, f, g, f', g') then Firm else Shaken
  }

  /** The writer knows what it has to know next. */
  ghost function Knowing(hash: Hasher, f': Files, g': Shape, m: Entries, me': Proc, p: nat): Standing {
    if forall t {:trigger Opened(t)} :: Opened(t) ==> Local(hash, f', g', m, me', p) then Firm else Shaken
  }

  /** The writer's chain stands for what it should. */
  ghost function Viewing(hash: Hasher, f': Files, g': Shape, m: Entries, me': Proc): Standing {
    if forall t {:trigger Opened(t)} :: Opened(t) ==> ChainAgreesWith(hash, f', g', me', m) then Firm else Shaken
  }

  lemma Write(hash: Hasher, s: Sys, f': Files, g': Shape, p: nat, me': Proc)
    requires StandingOf(hash, s) == Firm && p < |s.procs|
    requires SameHold(s.procs[p], me') && me'.op == s.procs[p].op && me'.cursor == s.procs[p].cursor
    requires Sturdy(hash, s.files, f', g') == Firm
    requires Settled(s.g, g', p, s.procs[p], me') == Firm
    requires Sparing(hash, s.procs[p], p, s.files, s.g, f', g') == Firm
    requires Knowing(hash, f', g', s.m, me', p) == Firm && Viewing(hash, f', g', s.m, me') == Firm
    ensures StandingOf(hash, Wrote(s, f', g', p, me')) == Firm
  {
    hide Structure, SetPtr;
    assert World(hash, Wrote(s, f', g', p, me')) == Firm by {
      assert Opened(true);
      WroteWorld(hash, s, f', g', p, me');
    }
    assert Holdings(Wrote(s, f', g', p, me')) == Firm by {
      assert Opened(true);
      WroteHoldings(hash, s, f', g', p, me');
    }
    assert Conduct(hash, s, Wrote(s, f', g', p, me'), p) == Firm by {
      assert Opened(true);
      WroteConduct(hash, s, f', g', p, me');
    }
    Keep(hash, s, Wrote(s, f', g', p, me'), p);
  }

  ghost function BeforeOf(hash: Hasher, f: Files, g: Shape, m: Entries, me: Proc, p: nat): Standing {
    if forall t {:trigger Opened(t)} :: Opened(t) ==> Before(hash, f, g, m, me, p) then Firm else Shaken
  }

  lemma BeforeStore(hash: Hasher, s: Sys, p: nat)
    requires StandingOf(hash, s) == Firm && p < |s.procs| && Writes(s.procs[p].pc)
    ensures BeforeOf(hash, s.files, s.g, s.m, s.procs[p], p) == Firm && |s.g.lists| == NLIST
  {
    hide StandingOf, BeforeOf;
    Knows(hash, s, p);
    BeforeWrite(hash, s, p);
  }

  lemma Facts(hash: Hasher, f: Files, g: Shape, m: Entries, me: Proc, p: nat)
    requires BeforeOf(hash, f, g, m, me, p) == Firm
    ensures Before(hash, f, g, m, me, p)
  {
    assert Opened(true);
  }

  // The same facts one at a time.

  lemma LocalFact(hash: Hasher, f: Files, g: Shape, m: Entries, me: Proc, p: nat)
    requires BeforeOf(hash, f, g, m, me, p) == Firm
    ensures Local(hash, f, g, m, me, p) && HoldsChain(me.pc) && !me.op.FetchOp?
            && 1 + ChainOf(hash, me.op) < |g.lists| == NLIST
  {
    assert Opened(true);
  }

  lemma PlacedFact(hash: Hasher, f: Files, g: Shape, m: Entries, me: Proc, p: nat)
    requires BeforeOf(hash, f, g, m, me, p) == Firm
    ensures RecordsPlaced(f, g) && Partition(g) && InTable(hash)
  {
    assert Opened(true);
  }

  lemma SoundFact(hash: Hasher, f: Files, g: Shape, m: Entries, me: Proc, p: nat)
    requires BeforeOf(hash, f, g, m, me, p) == Firm
    ensures Sound(f, g) && InTable(hash)
  {
    assert Opened(true);
  }

  lemma DataFact(hash: Hasher, f: Files, g: Shape, m: Entries, me: Proc, p: nat)
    requires BeforeOf(hash, f, g, m, me, p) == Firm
    ensures DataHeld(f, g)
  {
    assert Opened(true);
  }

  lemma BlankFact(hash: Hasher, f: Files, g: Shape, m: Entries, me: Proc, p: nat)
    requires BeforeOf(hash, f, g, m, me, p) == Firm
    ensures FreeBlank(f, g) && g.owner.Keys == f.recs.Keys
  {
    assert Opened(true);
  }

  lemma TiledFact(hash: Hasher, f: Files, g: Shape, m: Entries, me: Proc, p: nat)
    requires BeforeOf(hash, f, g, m, me, p) == Firm
    ensures Tiled(f) && Disjoint(f)
  {
    assert Opened(true);
  }

  lemma OwnFact(hash: Hasher, f: Files, g: Shape, m: Entries, me: Proc, p: nat)
    requires BeforeOf(hash, f, g, m, me, p) == Firm
    ensures OwnOnly(g, p, me)
  {
    assert Opened(true);
  }

  lemma ViewFact(hash: Hasher, f: Files, g: Shape, m: Entries, me: Proc, p: nat)
    requires BeforeOf(hash, f, g, m, me, p) == Firm
    ensures ChainAgreesWith(hash, f, g, me, m)
  {
    assert Opened(true);
  }

  /** Nothing becomes or stops being p's own. */
  lemma SameOwn(hash: Hasher, f: Files, g: Shape, m: Entries, me: Proc, p: nat, me': Proc)
    requires BeforeOf(hash, f, g, m, me, p) == Firm
    requires Loose(me).Some? ==> Loose(me') == Loose(me)
    requires LooseData(me).Some? ==> LooseData(me') == LooseData(me)
    ensures Settled(g, g, p, me, me') == Firm
  {
    hide BeforeOf;
    OwnFact(hash, f, g, m, me, p);
  }

  /** Record x becomes p's own or ceases to be, and no extent changes hands. */
  lemma RecordSettles(g: Shape, g': Shape, p: nat, me: Proc, me': Proc, x: nat)
    requires OwnOnly(g, p, me) && g'.extents == g.extents && LooseData(me) == None
    requires g'.owner.Keys == g.owner.Keys && x in g.owner
    requires forall o :: o in g.owner && o != x ==> g'.owner[o] == g.owner[o] && Loose(me) != Some(o)
    requires if g'.owner[x] == Priv(p) then Loose(me') == Some(x) else g'.owner[x] < NLIST
    ensures Settled(g, g', p, me, me') == Firm
  {
    forall a: nat, q: nat ensures OwnExtent(g', a, q) == OwnExtent(g, a, q) {}
    forall o | o in g'.owner && g'.owner[o] >= NLIST
      ensures if g'.owner[o] == Priv(p) then Loose(me') == Some(o) else o in g.owner && g.owner[o] == g'.owner[o]
    {
      assert o in g.owner && (o != x ==> g.owner[o] != Priv(p));
    }
  }

  lemma PtrPlaces(f: Files, slot: nat, v: nat)
    requires Tiled(f) && Disjoint(f)
    ensures Tiled(SetPtr(f, slot, v)) && Disjoint(SetPtr(f, slot, v)) && PlacesKept(f, SetPtr(f, slot, v))
  {
    SameSizesPlaces(f, SetPtr(f, slot, v));
    DisjointSame(f, SetPtr(f, slot, v));
  }

  lemma PtrBlank(f: Files, slot: nat, v: nat, g': Shape)
    requires forall o :: o in g'.owner && g'.owner[o] == FREE ==>
               o in f.recs && AllBlank(f.recs[o].key) && Wiped(f, f.recs[o].datoff)
    ensures FreeBlank(SetPtr(f, slot, v), g')
  {
  }

  // ---- Writes to the data file ----

  /** Rewriting the data of one record changes no other. */
  lemma DataElsewhere(f: Files, g: Shape, x: nat, data: CString, o: nat)
    requires Sound(f, g) && x in f.recs && o in f.recs && o != x
    ensures SameRecord(f, PutData(f, f.recs[x].datoff, data), o)
  {
    assert g.extents[f.recs[x].datoff] == InRecord(x) && g.extents[f.recs[o].datoff] == InRecord(o);
  }

  lemma PutDataSpares(hash: Hasher, me: Proc, p: nat, f: Files, g: Shape, x: nat, data: CString)
    requires Sound(f, g) && x in f.recs && !Foreign(hash, me, p, g, x)
    ensures Sparing(hash, me, p, f, g, PutData(f, f.recs[x].datoff, data), g) == Firm
  {
    var f' := PutData(f, f.recs[x].datoff, data);
    forall o | o in f.recs && Foreign(hash, me, p, g, o)
      ensures SameRecord(f, f', o)
    {
      DataElsewhere(f, g, x, data, o);
    }
    assert g.extents[f.recs[x].datoff] == InRecord(x);
  }

  lemma PutDataBlank(f: Files, g: Shape, x: nat, data: CString)
    requires Sound(f, g) && FreeBlank(f, g) && x in f.recs && x in g.owner && g.owner[x] != FREE
    ensures FreeBlank(PutData(f, f.recs[x].datoff, data), g)
  {
    var f' := PutData(f, f.recs[x].datoff, data);
    forall o | o in f'.recs && o in g.owner && g.owner[o] == FREE
      ensures AllBlank(f'.recs[o].key) && Wiped(f', f'.recs[o].datoff)
    {
      DataElsewhere(f, g, x, data, o);
    }
  }

  lemma PutDataSturdy(hash: Hasher, f: Files, g: Shape, x: nat, data: CString)
    requires Structure(hash, f, g) && x in f.recs && f.recs[x].datlen == |data| + 1
    requires x in g.owner && g.owner[x] != FREE
    ensures Sturdy(hash, f, PutData(f, f.recs[x].datoff, data), g) == Firm
  {
    PutDataBlank(f, g, x, data);
    hide FreeBlank;
    PutDataSound(f, g, f.recs[x].datoff, data);
    SameSizesPlaces(f, PutData(f, f.recs[x].datoff, data));
    DisjointSame(f, PutData(f, f.recs[x].datoff, data));
  }

  /** Data of the same length over the data of a record on the chain: the entry changes, and no other. */
  lemma OverwriteView(hash: Hasher, f: Files, g: Shape, m: Entries, me: Proc, p: nat)
    requires BeforeOf(hash, f, g, m, me, p) == Firm && me.pc == Overwrite
    ensures Viewing(hash, PutData(f, me.rec.datoff, DataOf(me.op)), g, m, me.(pc := Unlock, res := Rc(0))) == Firm
  {
    hide BeforeOf;
    LocalFact(hash, f, g, m, me, p);
    ViewFact(hash, f, g, m, me, p);
    var h := ChainOf(hash, me.op);
    var f' := PutData(f, me.rec.datoff, DataOf(me.op));
    var xs := g.lists[1 + h];
    assert me.off in xs;
    forall o | o in xs && o != me.off ensures SameEntry(f, f', o) {
      assert SameRecord(f, f', o) by {
        SoundFact(hash, f, g, m, me, p);
        DataElsewhere(f, g, me.off, DataOf(me.op), o);
      }
    }
    var me' := me.(pc := Unlock, res := Rc(0));
    OverwriteAgrees(hash, f, f', xs, h, me.off, m, m[me.rec.key := DataOf(me.op)]);
    assert Pending(me', m) == m[me.rec.key := DataOf(me.op)];
    assert ChainAgreesWith(hash, f', g, me', m);
  }

  lemma OverwriteKnowing(hash: Hasher, f: Files, g: Shape, m: Entries, me: Proc, p: nat)
    requires BeforeOf(hash, f, g, m, me, p) == Firm && me.pc == Overwrite
    ensures Knowing(hash, PutData(f, me.rec.datoff, DataOf(me.op)), g, m, me.(pc := Unlock, res := Rc(0)), p) == Firm
  {
    hide BeforeOf;
    LocalFact(hash, f, g, m, me, p);
    assert Local(hash, PutData(f, me.rec.datoff, DataOf(me.op)), g, m, me.(pc := Unlock, res := Rc(0)), p);
  }

  lemma OverwriteKeepsRest(hash: Hasher, f: Files, g: Shape, m: Entries, me: Proc, p: nat)
    requires BeforeOf(hash, f, g, m, me, p) == Firm && me.pc == Overwrite
    ensures Sturdy(hash, f, PutData(f, me.rec.datoff, DataOf(me.op)), g) == Firm
    ensures Sparing(hash, me, p, f, g, PutData(f, me.rec.datoff, DataOf(me.op)), g) == Firm
  {
    hide BeforeOf;
    Facts(hash, f, g, m, me, p);
    assert me.off in Chain(hash, g, me);
    PutDataSturdy(hash, f, g, me.off, DataOf(me.op));
    PutDataSpares(hash, me, p, f, g, me.off, DataOf(me.op));
  }

  lemma KeepsOverwrite(hash: Hasher, s: Sys, p: nat)
    requires StandingOf(hash, s) == Firm && p < |s.procs| && s.procs[p].pc == Overwrite
    ensures StandingOf(hash, StepOverwrite(s, p)) == Firm
  {
    hide StandingOf, BeforeOf, Sturdy, Settled, Sparing, Knowing, Viewing;
    var me := s.procs[p];
    BeforeStore(hash, s, p);
    var f', me' := PutData(s.files, me.rec.datoff, DataOf(me.op)), me.(pc := Unlock, res := Rc(0));
    OverwriteView(hash, s.files, s.g, s.m, me, p);
    OverwriteKnowing(hash, s.files, s.g, s.m, me, p);
    OverwriteKeepsRest(hash, s.files, s.g, s.m, me, p);
    SameOwn(hash, s.files, s.g, s.m, me, p, me');
    Write(hash, s, f', s.g, p, me');
  }

  /** A chain whose own records are left alone keeps standing for what it stood for. */
  lemma ViewKept(hash: Hasher, f: Files, g: Shape, m: Entries, me: Proc, p: nat, f': Files, g': Shape, me': Proc)
    requires BeforeOf(hash, f, g, m, me, p) == Firm && me'.op == me.op && Pending(me', m) == Pending(me, m)
    requires var k := 1 + ChainOf(hash, me.op); k < |g'.lists| && g'.lists[k] == Chain(hash, g, me)
    requires forall o {:trigger SameRecord(f, f', o)} :: o in Chain(hash, g, me) ==> SameRecord(f, f', o)
    ensures Viewing(hash, f', g', m, me') == Firm
  {
    hide BeforeOf, Local;
    LocalFact(hash, f, g, m, me, p);
    ViewFact(hash, f, g, m, me, p);
    var h := ChainOf(hash, me.op);
    forall o | o in g.lists[1 + h] ensures SameEntry(f, f', o) { assert SameRecord(f, f', o); }
    AgreesFrame(hash, f, f', g.lists[1 + h], h, Pending(me, m), Pending(me', m));
    assert ChainAgreesWith(hash, f', g', me', m);
  }

  lemma OwnOffChain(hash: Hasher, f: Files, g: Shape, m: Entries, me: Proc, p: nat)
    requires BeforeOf(hash, f, g, m, me, p) == Firm && Mine(f, g, me.off, p)
    ensures me.off !in Chain(hash, g, me)
    ensures forall o :: o in Chain(hash, g, me) ==> o in f.recs
  {
    hide BeforeOf;
    LocalFact(hash, f, g, m, me, p);
    PlacedFact(hash, f, g, m, me, p);
    var k := 1 + ChainOf(hash, me.op);
    forall o | o in g.lists[k]
      ensures o in f.recs && g.owner[o] == k
    {
      var j :| 0 <= j < |g.lists[k]| && g.lists[k][j] == o;
    }
  }

  // ---- Storing into a record from the free list ----

  lemma ReuseDataView(hash: Hasher, f: Files, g: Shape, m: Entries, me: Proc, p: nat)
    requires BeforeOf(hash, f, g, m, me, p) == Firm && me.pc == ReuseData
    ensures Viewing(hash, PutData(f, me.rec.datoff, DataOf(me.op)), g, m, me.(pc := ReuseRec)) == Firm
  {
    hide BeforeOf;
    LocalFact(hash, f, g, m, me, p);
    var f', me' := PutData(f, me.rec.datoff, DataOf(me.op)), me.(pc := ReuseRec);
    OwnOffChain(hash, f, g, m, me, p);
    forall o | o in Chain(hash, g, me) ensures SameRecord(f, f', o) {
      SoundFact(hash, f, g, m, me, p);
      DataElsewhere(f, g, me.off, DataOf(me.op), o);
    }
    ViewKept(hash, f, g, m, me, p, f', g, me');
  }

  lemma ReuseDataKnowing(hash: Hasher, f: Files, g: Shape, m: Entries, me: Proc, p: nat)
    requires BeforeOf(hash, f, g, m, me, p) == Firm && me.pc == ReuseData
    ensures Knowing(hash, PutData(f, me.rec.datoff, DataOf(me.op)), g, m, me.(pc := ReuseRec), p) == Firm
  {
    hide BeforeOf;
    LocalFact(hash, f, g, m, me, p);
    assert Local(hash, PutData(f, me.rec.datoff, DataOf(me.op)), g, m, me.(pc := ReuseRec), p);
  }

  lemma ReuseDataRest(hash: Hasher, f: Files, g: Shape, m: Entries, me: Proc, p: nat)
    requires BeforeOf(hash, f, g, m, me, p) == Firm && me.pc == ReuseData
    ensures Sturdy(hash, f, PutData(f, me.rec.datoff, DataOf(me.op)), g) == Firm
    ensures Sparing(hash, me, p, f, g, PutData(f, me.rec.datoff, DataOf(me.op)), g) == Firm
  {
    hide BeforeOf;
    Facts(hash, f, g, m, me, p);
    PutDataSturdy(hash, f, g, me.off, DataOf(me.op));
    PutDataSpares(hash, me, p, f, g, me.off, DataOf(me.op));
  }

  lemma KeepsReuseData(hash: Hasher, s: Sys, p: nat)
    requires StandingOf(hash, s) == Firm && p < |s.procs| && s.procs[p].pc == ReuseData
    ensures StandingOf(hash, StepReuseData(s, p)) == Firm
  {
    hide StandingOf, BeforeOf, Sturdy, Settled, Sparing, Knowing, Viewing;
    var me := s.procs[p];
    BeforeStore(hash, s, p);
    var f', me' := PutData(s.files, me.rec.datoff, DataOf(me.op)), me.(pc := ReuseRec);
    ReuseDataView(hash, s.files, s.g, s.m, me, p);
    ReuseDataKnowing(hash, s.files, s.g, s.m, me, p);
    ReuseDataRest(hash, s.files, s.g, s.m, me, p);
    SameOwn(hash, s.files, s.g, s.m, me, p, me');
    Write(hash, s, f', s.g, p, me');
  }

  /** Rewriting p's own record: nothing but that record changes. */
  lemma PutRecSparing(hash: Hasher, me: Proc, p: nat, f: Files, g: Shape, r: Rec)
    requires Sound(f, g) && Mine(f, g, me.off, p) && (HoldsFree(me.pc) || AllBlank(f.recs[me.off].key))
    ensures Sparing(hash, me, p, f, g, PutRec(f, me.off, r), g) == Firm
  {
  }

  lemma PutRecSturdy(hash: Hasher, f: Files, g: Shape, o: nat, p: nat, r: Rec)
    requires Structure(hash, f, g) && Mine(f, g, o, p)
    requires |r.key| == |f.recs[o].key| && r.datoff == f.recs[o].datoff && r.datlen == f.recs[o].datlen
    ensures Sturdy(hash, f, PutRec(f, o, r), g) == Firm
  {
    hide Sound, Tiled, DataHeld, PlacesKept;
    PutRecSound(f, g, o, r);
    SameSizesPlaces(f, PutRec(f, o, r));
    DisjointSame(f, PutRec(f, o, r));
  }

  function StoredRec(me: Proc): Rec { Rec(me.ptr, KeyOf(me.op), me.rec.datoff, |DataOf(me.op)| + 1) }

  lemma ReuseRecView(hash: Hasher, f: Files, g: Shape, m: Entries, me: Proc, p: nat)
    requires BeforeOf(hash, f, g, m, me, p) == Firm && me.pc == ReuseRec
    ensures Viewing(hash, PutRec(f, me.off, StoredRec(me)), g, m, me.(pc := LinkHead)) == Firm
  {
    hide BeforeOf;
    LocalFact(hash, f, g, m, me, p);
    var f', me' := PutRec(f, me.off, StoredRec(me)), me.(pc := LinkHead);
    OwnOffChain(hash, f, g, m, me, p);
    forall o | o in Chain(hash, g, me) ensures SameRecord(f, f', o) {}
    ViewKept(hash, f, g, m, me, p, f', g, me');
  }

  lemma ReuseRecKnowing(hash: Hasher, f: Files, g: Shape, m: Entries, me: Proc, p: nat)
    requires BeforeOf(hash, f, g, m, me, p) == Firm && me.pc == ReuseRec
    ensures Knowing(hash, PutRec(f, me.off, StoredRec(me)), g, m, me.(pc := LinkHead), p) == Firm
  {
    hide BeforeOf;
    LocalFact(hash, f, g, m, me, p);
    assert Local(hash, PutRec(f, me.off, StoredRec(me)), g, m, me.(pc := LinkHead), p);
  }

  lemma ReuseRecRest(hash: Hasher, f: Files, g: Shape, m: Entries, me: Proc, p: nat)
    requires BeforeOf(hash, f, g, m, me, p) == Firm && me.pc == ReuseRec
    ensures Sturdy(hash, f, PutRec(f, me.off, StoredRec(me)), g) == Firm
    ensures Sparing(hash, me, p, f, g, PutRec(f, me.off, StoredRec(me)), g) == Firm
  {
    hide BeforeOf;
    Facts(hash, f, g, m, me, p);
    PutRecSturdy(hash, f, g, me.off, p, StoredRec(me));
    PutRecSparing(hash, me, p, f, g, StoredRec(me));
  }

  lemma KeepsReuseRec(hash: Hasher, s: Sys, p: nat)
    requires StandingOf(hash, s) == Firm && p < |s.procs| && s.procs[p].pc == ReuseRec
    ensures StandingOf(hash, StepReuseRec(s, p)) == Firm
  {
    hide StandingOf, BeforeOf, Sturdy, Settled, Sparing, Knowing, Viewing;
    var me := s.procs[p];
    BeforeStore(hash, s, p);
    var me' := me.(pc := LinkHead);
    ReuseRecView(hash, s.files, s.g, s.m, me, p);
    ReuseRecKnowing(hash, s.files, s.g, s.m, me, p);
    ReuseRecRest(hash, s.files, s.g, s.m, me, p);
    SameOwn(hash, s.files, s.g, s.m, me, p, me');
    Write(hash, s, PutRec(s.files, me.off, StoredRec(me)), s.g, p, me');
  }

  // ---- Taking a record off the free list ----

  lemma TakeSparing(hash: Hasher, f: Files, g: Shape, m: Entries, me: Proc, p: nat)
    requires BeforeOf(hash, f, g, m, me, p) == Firm && me.pc == FreeTake
    ensures me.pos < |Free(g)| && |g.lists| == NLIST
    ensures Sparing(hash, me, p, f, g, SetPtr(f, me.ptroff, me.rec.ptr), Unlinked(g, FREE, me.pos, p)) == Firm
  {
    hide BeforeOf;
    LocalFact(hash, f, g, m, me, p);
    PlacedFact(hash, f, g, m, me, p);
    var f', g' := SetPtr(f, me.ptroff, me.rec.ptr), Unlinked(g, FREE, me.pos, p);
    NodePlaced(f, g, FREE, me.pos);
    NodePlaced(f, g, FREE, me.pos + 1);
    assert RecordsSpared(hash, me, p, f, g, f', g');
    assert ListsSpared(hash, me, g, g') && ExtentsSpared(p, f, g, f', g');
  }

  lemma TakeSpares(hash: Hasher, f: Files, g: Shape, m: Entries, me: Proc, p: nat)
    requires BeforeOf(hash, f, g, m, me, p) == Firm && me.pc == FreeTake
    ensures 1 + ChainOf(hash, me.op) < |g.lists|
    ensures forall o {:trigger SameRecord(f, SetPtr(f, me.ptroff, me.rec.ptr), o)} ::
              o in Chain(hash, g, me) ==> SameRecord(f, SetPtr(f, me.ptroff, me.rec.ptr), o)
  {
    hide BeforeOf;
    LocalFact(hash, f, g, m, me, p);
    PlacedFact(hash, f, g, m, me, p);
    NodePlaced(f, g, FREE, me.pos);
    var k := 1 + ChainOf(hash, me.op);
    forall o | o in Chain(hash, g, me) ensures SameRecord(f, SetPtr(f, me.ptroff, me.rec.ptr), o) {
      var j :| 0 <= j < |g.lists[k]| && g.lists[k][j] == o;
      NodePlaced(f, g, k, j + 1);
    }
  }

  lemma TakeSound(hash: Hasher, f: Files, g: Shape, m: Entries, me: Proc, p: nat)
    requires BeforeOf(hash, f, g, m, me, p) == Firm && me.pc == FreeTake
    requires me.pos < |Free(g)| && |g.lists| == NLIST
    requires g.lists[FREE][me.pos] in f.recs
    ensures Sound(SetPtr(f, me.ptroff, me.rec.ptr), Unlinked(g, FREE, me.pos, p))
  {
    hide BeforeOf;
    assert me.ptroff == Node(FREE, g.lists[FREE], me.pos) && me.rec.ptr == f.recs[g.lists[FREE][me.pos]].ptr by {
      LocalFact(hash, f, g, m, me, p);
    }
    assert Sound(f, g) by { SoundFact(hash, f, g, m, me, p); }
    UnlinkSound(f, g, FREE, me.pos, p);
  }

  lemma TakeBlank(hash: Hasher, f: Files, g: Shape, m: Entries, me: Proc, p: nat)
    requires BeforeOf(hash, f, g, m, me, p) == Firm && me.pc == FreeTake
    requires me.pos < |Free(g)| && |g.lists| == NLIST
    ensures var f' := SetPtr(f, me.ptroff, me.rec.ptr);
            && InTable(hash) && Tiled(f') && Disjoint(f') && PlacesKept(f, f')
            && FreeBlank(f', Unlinked(g, FREE, me.pos, p))
  {
    hide BeforeOf;
    SoundFact(hash, f, g, m, me, p);
    BlankFact(hash, f, g, m, me, p);
    TiledFact(hash, f, g, m, me, p);
    PtrPlaces(f, me.ptroff, me.rec.ptr);
    assert g.owner[g.lists[FREE][me.pos]] == FREE;
    PtrBlank(f, me.ptroff, me.rec.ptr, Unlinked(g, FREE, me.pos, p));
  }

  lemma TakeSturdy(hash: Hasher, f: Files, g: Shape, m: Entries, me: Proc, p: nat)
    requires BeforeOf(hash, f, g, m, me, p) == Firm && me.pc == FreeTake
    requires me.pos < |Free(g)| && |g.lists| == NLIST
    ensures Sturdy(hash, f, SetPtr(f, me.ptroff, me.rec.ptr), Unlinked(g, FREE, me.pos, p)) == Firm
  {
    hide BeforeOf;
    assert g.lists[FREE][me.pos] in f.recs by { LocalFact(hash, f, g, m, me, p); }
    TakeSound(hash, f, g, m, me, p);
    TakeBlank(hash, f, g, m, me, p);
  }

  lemma TakeView(hash: Hasher, f: Files, g: Shape, m: Entries, me: Proc, p: nat)
    requires BeforeOf(hash, f, g, m, me, p) == Firm && me.pc == FreeTake
    requires me.pos < |Free(g)| && |g.lists| == NLIST
    ensures var (f', g') := (SetPtr(f, me.ptroff, me.rec.ptr), Unlinked(g, FREE, me.pos, p));
            Viewing(hash, f', g', m, me.(pc := FreeUnlock)) == Firm
  {
    hide BeforeOf;
    TakeSpares(hash, f, g, m, me, p);
    ViewKept(hash, f, g, m, me, p, SetPtr(f, me.ptroff, me.rec.ptr), Unlinked(g, FREE, me.pos, p),
        me.(pc := FreeUnlock));
  }

  lemma TakeKnowing(hash: Hasher, f: Files, g: Shape, m: Entries, me: Proc, p: nat)
    requires BeforeOf(hash, f, g, m, me, p) == Firm && me.pc == FreeTake
    requires me.pos < |Free(g)| && |g.lists| == NLIST
    ensures var (f', g') := (SetPtr(f, me.ptroff, me.rec.ptr), Unlinked(g, FREE, me.pos, p));
            Knowing(hash, f', g', m, me.(pc := FreeUnlock), p) == Firm
  {
    hide BeforeOf;
    LocalFact(hash, f, g, m, me, p);
    var f', g' := SetPtr(f, me.ptroff, me.rec.ptr), Unlinked(g, FREE, me.pos, p);
    assert me.off != 0 && AllBlank(me.rec.key) && f'.recs[me.off] == me.rec && me.off in g.owner by {
      SoundFact(hash, f, g, m, me, p);
      BlankFact(hash, f, g, m, me, p);
      FreePlaces(f, g, me.pos);
      NodePlaced(f, g, FREE, me.pos + 1);
    }
    assert Spare(f', g', me.(pc := FreeUnlock), p);
    assert Local(hash, f', g', m, me.(pc := FreeUnlock), p);
  }

  lemma TakeSettles(hash: Hasher, f: Files, g: Shape, m: Entries, me: Proc, p: nat)
    requires BeforeOf(hash, f, g, m, me, p) == Firm && me.pc == FreeTake
    requires me.pos < |Free(g)| && |g.lists| == NLIST
    ensures Settled(g, Unlinked(g, FREE, me.pos, p), p, me, me.(pc := FreeUnlock)) == Firm
  {
    hide BeforeOf;
    OwnFact(hash, f, g, m, me, p);
    assert g.lists[FREE][me.pos] == me.off && me.off in g.owner && me.off != 0 by {
      LocalFact(hash, f, g, m, me, p);
      PlacedFact(hash, f, g, m, me, p);
    }
    RecordSettles(g, Unlinked(g, FREE, me.pos, p), p, me, me.(pc := FreeUnlock), me.off);
  }

  lemma KeepsFreeTake(hash: Hasher, s: Sys, p: nat)
    requires StandingOf(hash, s) == Firm && p < |s.procs| && s.procs[p].pc == FreeTake
    ensures StandingOf(hash, StepFreeTake(s, p)) == Firm
  {
    hide StandingOf, BeforeOf, Sturdy, Settled, Sparing, Knowing, Viewing;
    var me := s.procs[p];
    BeforeStore(hash, s, p);
    TakeSparing(hash, s.files, s.g, s.m, me, p);
    TakeSturdy(hash, s.files, s.g, s.m, me, p);
    TakeView(hash, s.files, s.g, s.m, me, p);
    TakeKnowing(hash, s.files, s.g, s.m, me, p);
    TakeSettles(hash, s.files, s.g, s.m, me, p);
    Write(hash, s, SetPtr(s.files, me.ptroff, me.rec.ptr), Unlinked(s.g, FREE, me.pos, p), p, me.(pc := FreeUnlock));
  }

  // ---- Linking the new record ----

  lemma LinkSound(hash: Hasher, f: Files, g: Shape, m: Entries, me: Proc, p: nat)
    requires BeforeOf(hash, f, g, m, me, p) == Firm && me.pc == LinkHead && 1 + ChainOf(hash, me.op) < |g.lists|
    ensures var k := 1 + ChainOf(hash, me.op); Sound(SetPtr(f, Slot(k), me.off), Pushed(g, k, me.off))
  {
    hide BeforeOf;
    LocalFact(hash, f, g, m, me, p);
    assert Sound(f, g) by { SoundFact(hash, f, g, m, me, p); }
    PushSound(f, g, 1 + ChainOf(hash, me.op), me.off);
  }

  lemma LinkSturdy(hash: Hasher, f: Files, g: Shape, m: Entries, me: Proc, p: nat)
    requires BeforeOf(hash, f, g, m, me, p) == Firm && me.pc == LinkHead
    ensures var k := 1 + ChainOf(hash, me.op);
            k < |g.lists| && Sturdy(hash, f, SetPtr(f, Slot(k), me.off), Pushed(g, k, me.off)) == Firm
  {
    hide BeforeOf;
    LocalFact(hash, f, g, m, me, p);
    var k := 1 + ChainOf(hash, me.op);
    LinkSound(hash, f, g, m, me, p);
    TiledFact(hash, f, g, m, me, p);
    BlankFact(hash, f, g, m, me, p);
    assert InTable(hash) by { SoundFact(hash, f, g, m, me, p); }
    PtrPlaces(f, Slot(k), me.off);
    PtrBlank(f, Slot(k), me.off, Pushed(g, k, me.off));
  }

  /** Own record me.off goes to the front of list k, and no record changes. */
  lemma PushSpares(hash: Hasher, f: Files, g: Shape, f': Files, k: nat, me: Proc, p: nat)
    requires f'.recs == f.recs && f'.dat == f.dat && k < |g.lists| && MayWrite(hash, me, k)
    requires g.owner.Keys == f.recs.Keys && me.off in g.owner && g.owner[me.off] == Priv(p)
             && (k == FREE ==> HoldsFree(me.pc))
    ensures Sparing(hash, me, p, f, g, f', Pushed(g, k, me.off)) == Firm
  {
    hide MayWrite;
    var g' := Pushed(g, k, me.off);
    assert RecordsSpared(hash, me, p, f, g, f', g');
    assert ListsSpared(hash, me, g, g') && ExtentsSpared(p, f, g, f', g');
    assert ScansSpared(me, f, g, f', g');
  }

  lemma LinkSparing(hash: Hasher, f: Files, g: Shape, m: Entries, me: Proc, p: nat)
    requires BeforeOf(hash, f, g, m, me, p) == Firm && me.pc == LinkHead && 1 + ChainOf(hash, me.op) < |g.lists|
    ensures var k := 1 + ChainOf(hash, me.op);
            Sparing(hash, me, p, f, g, SetPtr(f, Slot(k), me.off), Pushed(g, k, me.off)) == Firm
  {
    hide BeforeOf;
    var k := 1 + ChainOf(hash, me.op);
    HeadOnly(hash, f, g, m, me, p, k, me.off);
    assert MayWrite(hash, me, k) && g.owner[me.off] == Priv(p) && me.off in g.owner by {
      LocalFact(hash, f, g, m, me, p);
    }
    assert g.owner.Keys == f.recs.Keys by { PlacedFact(hash, f, g, m, me, p); }
    PushSpares(hash, f, g, SetPtr(f, Slot(k), me.off), k, me, p);
  }

  lemma LinkSettles(hash: Hasher, f: Files, g: Shape, m: Entries, me: Proc, p: nat)
    requires BeforeOf(hash, f, g, m, me, p) == Firm && me.pc == LinkHead && 1 + ChainOf(hash, me.op) < |g.lists|
    ensures var k := 1 + ChainOf(hash, me.op);
            Settled(g, Pushed(g, k, me.off), p, me, me.(pc := Unlock, res := Rc(0))) == Firm
  {
    hide BeforeOf;
    OwnFact(hash, f, g, m, me, p);
    LocalFact(hash, f, g, m, me, p);
    RecordSettles(g, Pushed(g, 1 + ChainOf(hash, me.op), me.off), p, me, me.(pc := Unlock, res := Rc(0)), me.off);
  }

  /** Writing a list head changes no record. */
  lemma HeadOnly(hash: Hasher, f: Files, g: Shape, m: Entries, me: Proc, p: nat, k: nat, v: nat)
    requires BeforeOf(hash, f, g, m, me, p) == Firm && k < |g.lists|
    ensures SetPtr(f, Slot(k), v).recs == f.recs && SetPtr(f, Slot(k), v).dat == f.dat
  {
    hide BeforeOf;
    PlacedFact(hash, f, g, m, me, p);
    NodePlaced(f, g, k, 0);
  }

  /** The records that were on the chain stand for what they stood for. */
  lemma LinkRest(hash: Hasher, f: Files, g: Shape, m: Entries, me: Proc, p: nat)
    requires BeforeOf(hash, f, g, m, me, p) == Firm && me.pc == LinkHead && 1 + ChainOf(hash, me.op) < |g.lists|
    ensures var h := ChainOf(hash, me.op);
            Agrees(hash, SetPtr(f, Slot(1 + h), me.off), g.lists[1 + h], h, m - {KeyOf(me.op)})
  {
    hide BeforeOf;
    var h := ChainOf(hash, me.op);
    var f', xs, m0 := SetPtr(f, Slot(1 + h), me.off), g.lists[1 + h], m - {KeyOf(me.op)};
    ViewFact(hash, f, g, m, me, p);
    HeadOnly(hash, f, g, m, me, p, 1 + h, me.off);
    hide SetPtr;
    forall o | o in xs ensures SameEntry(f, f', o) {}
    AgreesFrame(hash, f, f', xs, h, m0, m0);
  }

  /** Once the new record is the first of its chain, the chain has what the operation leaves. */
  lemma LinkView(hash: Hasher, f: Files, g: Shape, m: Entries, me: Proc, p: nat)
    requires BeforeOf(hash, f, g, m, me, p) == Firm && me.pc == LinkHead && 1 + ChainOf(hash, me.op) < |g.lists|
    ensures var k := 1 + ChainOf(hash, me.op);
            Viewing(hash, SetPtr(f, Slot(k), me.off), Pushed(g, k, me.off), m, me.(pc := Unlock, res := Rc(0))) == Firm
  {
    hide BeforeOf;
    var h := ChainOf(hash, me.op);
    var f', xs := SetPtr(f, Slot(1 + h), me.off), g.lists[1 + h];
    var m0 := m - {KeyOf(me.op)};
    assert Agrees(hash, f', xs, h, m0) by { LinkRest(hash, f, g, m, me, p); }
    LinkedEntry(hash, f, g, m, me, p);
    AgreesAfterPush(hash, f', xs, h, me.off, m0);
    assert m0[KeyOf(me.op) := DataOf(me.op)] == MapAfter(m, me.op);
    assert ChainAgreesWith(hash, f', Pushed(g, 1 + h, me.off), me.(pc := Unlock, res := Rc(0)), m);
  }

  lemma LinkedEntry(hash: Hasher, f: Files, g: Shape, m: Entries, me: Proc, p: nat)
    requires BeforeOf(hash, f, g, m, me, p) == Firm && me.pc == LinkHead
    ensures var f' := SetPtr(f, Slot(1 + ChainOf(hash, me.op)), me.off);
            && me.off in f'.recs && f'.recs[me.off].key == KeyOf(me.op)
            && f'.recs[me.off].datoff in f'.dat && f'.dat[f'.recs[me.off].datoff] == DataOf(me.op)
    ensures me.op.StoreOp? && Succeeds(m, me.op) && me.op.flag != BadFlag
  {
    hide BeforeOf;
    LocalFact(hash, f, g, m, me, p);
    assert me.op.StoreOp? ==> me.op.flag != BadFlag;
    HeadOnly(hash, f, g, m, me, p, 1 + ChainOf(hash, me.op), me.off);
  }

  lemma LinkKnowing(hash: Hasher, f: Files, g: Shape, m: Entries, me: Proc, p: nat)
    requires BeforeOf(hash, f, g, m, me, p) == Firm && me.pc == LinkHead && 1 + ChainOf(hash, me.op) < |g.lists|
    ensures var k := 1 + ChainOf(hash, me.op);
            var me' := me.(pc := Unlock, res := Rc(0));
            Knowing(hash, SetPtr(f, Slot(k), me.off), Pushed(g, k, me.off), m, me', p) == Firm
  {
    hide BeforeOf;
    LinkedEntry(hash, f, g, m, me, p);
    assert MapAnswer(m, me.op) == Rc(0);
  }

  lemma KeepsLinkHead(hash: Hasher, s: Sys, p: nat)
    requires StandingOf(hash, s) == Firm && p < |s.procs| && s.procs[p].pc == LinkHead
    ensures StandingOf(hash, StepLinkHead(hash, s, p)) == Firm
  {
    hide StandingOf, BeforeOf, Sturdy, Settled, Sparing, Knowing, Viewing;
    var me := s.procs[p];
    BeforeStore(hash, s, p);
    var k := 1 + ChainOf(hash, me.op);
    LinkSturdy(hash, s.files, s.g, s.m, me, p);
    LinkSparing(hash, s.files, s.g, s.m, me, p);
    LinkSettles(hash, s.files, s.g, s.m, me, p);
    LinkView(hash, s.files, s.g, s.m, me, p);
    LinkKnowing(hash, s.files, s.g, s.m, me, p);
    var f', g', me' := SetPtr(s.files, Slot(k), me.off), Pushed(s.g, k, me.off), me.(pc := Unlock, res := Rc(0));
    Write(hash, s, f', g', p, me');
  }

  // ---- Appending ----

  lemma AppDatSturdy(hash: Hasher, f: Files, g: Shape, m: Entries, me: Proc, p: nat)
    requires BeforeOf(hash, f, g, m, me, p) == Firm && me.pc == AppDat
    ensures Sturdy(hash, f, AddData(f, DataOf(me.op)), DataAdded(f, g, p)) == Firm
  {
    hide BeforeOf;
    SoundFact(hash, f, g, m, me, p);
    TiledFact(hash, f, g, m, me, p);
    BlankFact(hash, f, g, m, me, p);
    AddDataSound(f, g, DataOf(me.op), p);
    SameSizesPlaces(f, AddData(f, DataOf(me.op)));
    assert DataHeld(f, g);
    DisjointAppended(f, DataOf(me.op));
  }

  lemma AppDatSparing(hash: Hasher, f: Files, g: Shape, m: Entries, me: Proc, p: nat)
    requires BeforeOf(hash, f, g, m, me, p) == Firm && me.pc == AppDat
    ensures Sparing(hash, me, p, f, g, AddData(f, DataOf(me.op)), DataAdded(f, g, p)) == Firm
  {
    hide BeforeOf;
    var f', g' := AddData(f, DataOf(me.op)), DataAdded(f, g, p);
    assert f.datEnd !in f.dat && f.datEnd !in g.extents by { DataFact(hash, f, g, m, me, p); }
    assert RecordsSpared(hash, me, p, f, g, f', g') by { assert forall o :: o in f.recs ==> o in f'.recs; }
    assert ListsSpared(hash, me, g, g') && ExtentsSpared(p, f, g, f', g');
    assert ScansSpared(me, f, g, f', g');
  }

  lemma OnOwnChain(hash: Hasher, f: Files, g: Shape, m: Entries, me: Proc, p: nat, o: nat)
    requires BeforeOf(hash, f, g, m, me, p) == Firm && 1 + ChainOf(hash, me.op) < |g.lists| && o in Chain(hash, g, me)
    ensures o in f.recs && f.idxEnd !in f.recs && f.recs[o].datoff in f.dat && f.recs[o].datoff < f.datEnd
  {
    hide BeforeOf;
    SoundFact(hash, f, g, m, me, p);
    ListWalkable(f, g, 1 + ChainOf(hash, me.op));
  }

  lemma AppDatView(hash: Hasher, f: Files, g: Shape, m: Entries, me: Proc, p: nat)
    requires BeforeOf(hash, f, g, m, me, p) == Firm && me.pc == AppDat
    ensures var me' := me.(pc := UnlockDat, datoff := f.datEnd);
            Viewing(hash, AddData(f, DataOf(me.op)), DataAdded(f, g, p), m, me') == Firm
  {
    hide BeforeOf;
    var f', g', me' := AddData(f, DataOf(me.op)), DataAdded(f, g, p), me.(pc := UnlockDat, datoff := f.datEnd);
    assert 1 + ChainOf(hash, me.op) < |g.lists| by { LocalFact(hash, f, g, m, me, p); }
    forall o | o in Chain(hash, g, me) ensures SameRecord(f, f', o) { OnOwnChain(hash, f, g, m, me, p, o); }
    hide Viewing;
    ViewKept(hash, f, g, m, me, p, f', g', me');
  }

  lemma AppDatKnowing(hash: Hasher, f: Files, g: Shape, m: Entries, me: Proc, p: nat)
    requires BeforeOf(hash, f, g, m, me, p) == Firm && me.pc == AppDat
    ensures var me' := me.(pc := UnlockDat, datoff := f.datEnd);
            Knowing(hash, AddData(f, DataOf(me.op)), DataAdded(f, g, p), m, me', p) == Firm
  {
    hide BeforeOf;
    LocalFact(hash, f, g, m, me, p);
    assert Local(hash, AddData(f, DataOf(me.op)), DataAdded(f, g, p), m, me.(pc := UnlockDat, datoff := f.datEnd), p);
  }

  lemma AppDatSettles(hash: Hasher, f: Files, g: Shape, m: Entries, me: Proc, p: nat)
    requires BeforeOf(hash, f, g, m, me, p) == Firm && me.pc == AppDat
    ensures Settled(g, DataAdded(f, g, p), p, me, me.(pc := UnlockDat, datoff := f.datEnd)) == Firm
  {
    hide BeforeOf;
    OwnFact(hash, f, g, m, me, p);
    forall a: nat, q: nat | a != f.datEnd ensures OwnExtent(DataAdded(f, g, p), a, q) == OwnExtent(g, a, q) {}
  }

  lemma KeepsAppDat(hash: Hasher, s: Sys, p: nat)
    requires StandingOf(hash, s) == Firm && p < |s.procs| && s.procs[p].pc == AppDat
    ensures StandingOf(hash, StepAppDat(s, p)) == Firm
  {
    hide StandingOf, BeforeOf, Sturdy, Settled, Sparing, Knowing, Viewing;
    var me := s.procs[p];
    BeforeStore(hash, s, p);
    AppDatSturdy(hash, s.files, s.g, s.m, me, p);
    AppDatSparing(hash, s.files, s.g, s.m, me, p);
    AppDatSettles(hash, s.files, s.g, s.m, me, p);
    AppDatView(hash, s.files, s.g, s.m, me, p);
    AppDatKnowing(hash, s.files, s.g, s.m, me, p);
    var me' := me.(pc := UnlockDat, datoff := s.files.datEnd);
    Write(hash, s, AddData(s.files, DataOf(me.op)), DataAdded(s.files, s.g, p), p, me');
  }

  function NewRec(me: Proc): Rec { Rec(me.ptr, KeyOf(me.op), me.datoff, |DataOf(me.op)| + 1) }

  lemma AppIdxSturdy(hash: Hasher, f: Files, g: Shape, m: Entries, me: Proc, p: nat)
    requires BeforeOf(hash, f, g, m, me, p) == Firm && me.pc == AppIdx
    ensures Sturdy(hash, f, AddRec(f, NewRec(me)), RecAdded(f, g, me.datoff, p)) == Firm
  {
    hide BeforeOf;
    var f', g' := AddRec(f, NewRec(me)), RecAdded(f, g, me.datoff, p);
    assert InTable(hash) && Sound(f', g') by {
      SoundFact(hash, f, g, m, me, p);
      LocalFact(hash, f, g, m, me, p);
      AddRecSound(f, g, NewRec(me), p);
    }
    assert Tiled(f') && Disjoint(f') && PlacesKept(f, f') by {
      TiledFact(hash, f, g, m, me, p);
      TiledAppended(f, NewRec(me));
      DisjointSame(f, f');
    }
    assert FreeBlank(f', g') by { BlankFact(hash, f, g, m, me, p); }
  }

  lemma AppIdxSparing(hash: Hasher, f: Files, g: Shape, m: Entries, me: Proc, p: nat)
    requires BeforeOf(hash, f, g, m, me, p) == Firm && me.pc == AppIdx
    ensures Sparing(hash, me, p, f, g, AddRec(f, NewRec(me)), RecAdded(f, g, me.datoff, p)) == Firm
  {
    hide BeforeOf;
    var f', g' := AddRec(f, NewRec(me)), RecAdded(f, g, me.datoff, p);
    assert f.idxEnd !in f.recs by { PlacedFact(hash, f, g, m, me, p); }
    assert OwnExtent(g, me.datoff, p) by { LocalFact(hash, f, g, m, me, p); }
    assert RecordsSpared(hash, me, p, f, g, f', g');
    assert ExtentsSpared(p, f, g, f', g');
    assert ListsSpared(hash, me, g, g') && ScansSpared(me, f, g, f', g');
  }

  lemma AppIdxView(hash: Hasher, f: Files, g: Shape, m: Entries, me: Proc, p: nat)
    requires BeforeOf(hash, f, g, m, me, p) == Firm && me.pc == AppIdx
    ensures var me' := me.(pc := UnlockIdx, off := f.idxEnd);
            Viewing(hash, AddRec(f, NewRec(me)), RecAdded(f, g, me.datoff, p), m, me') == Firm
  {
    hide BeforeOf;
    assert 1 + ChainOf(hash, me.op) < |g.lists| by { LocalFact(hash, f, g, m, me, p); }
    var f', g', me' := AddRec(f, NewRec(me)), RecAdded(f, g, me.datoff, p), me.(pc := UnlockIdx, off := f.idxEnd);
    forall o | o in Chain(hash, g, me) ensures SameRecord(f, f', o) { OnOwnChain(hash, f, g, m, me, p, o); }
    hide Viewing;
    ViewKept(hash, f, g, m, me, p, f', g', me');
  }

  lemma AppIdxKnowing(hash: Hasher, f: Files, g: Shape, m: Entries, me: Proc, p: nat)
    requires BeforeOf(hash, f, g, m, me, p) == Firm && me.pc == AppIdx
    ensures var me' := me.(pc := UnlockIdx, off := f.idxEnd);
            Knowing(hash, AddRec(f, NewRec(me)), RecAdded(f, g, me.datoff, p), m, me', p) == Firm
  {
    hide BeforeOf;
    LocalFact(hash, f, g, m, me, p);
    var f', g', me' := AddRec(f, NewRec(me)), RecAdded(f, g, me.datoff, p), me.(pc := UnlockIdx, off := f.idxEnd);
    assert Ready(f', g', Chain(hash, g, me), me', p);
    assert Local(hash, f', g', m, me', p);
  }

  lemma AppIdxSettles(hash: Hasher, f: Files, g: Shape, m: Entries, me: Proc, p: nat)
    requires BeforeOf(hash, f, g, m, me, p) == Firm && me.pc == AppIdx
    ensures Settled(g, RecAdded(f, g, me.datoff, p), p, me, me.(pc := UnlockIdx, off := f.idxEnd)) == Firm
  {
    hide BeforeOf;
    OwnFact(hash, f, g, m, me, p);
    var g' := RecAdded(f, g, me.datoff, p);
    forall a: nat, q: nat ensures OwnExtent(g', a, q) == (a != me.datoff && OwnExtent(g, a, q)) {}
    forall o | o in g'.owner && o != f.idxEnd ensures o in g.owner && g'.owner[o] == g.owner[o] {}
  }

  lemma KeepsAppIdx(hash: Hasher, s: Sys, p: nat)
    requires StandingOf(hash, s) == Firm && p < |s.procs| && s.procs[p].pc == AppIdx
    ensures StandingOf(hash, StepAppIdx(s, p)) == Firm
  {
    hide StandingOf, BeforeOf, Sturdy, Settled, Sparing, Knowing, Viewing;
    var me := s.procs[p];
    BeforeStore(hash, s, p);
    AppIdxSturdy(hash, s.files, s.g, s.m, me, p);
    AppIdxSparing(hash, s.files, s.g, s.m, me, p);
    AppIdxSettles(hash, s.files, s.g, s.m, me, p);
    AppIdxView(hash, s.files, s.g, s.m, me, p);
    AppIdxKnowing(hash, s.files, s.g, s.m, me, p);
    var me' := me.(pc := UnlockIdx, off := s.files.idxEnd);
    Write(hash, s, AddRec(s.files, NewRec(me)), RecAdded(s.files, s.g, me.datoff, p), p, me');
  }
}
