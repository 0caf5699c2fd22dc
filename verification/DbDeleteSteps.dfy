/**
 The writes of a deletion. The invariant counts the record as off its chain from the first of them on, so the
 write that bridges the gap in the chain, the last one, changes nothing the invariant speaks of.
 */
module DbDeleteSteps {
  import opened Seals
  import opened CText
  import opened DbFormat
  import opened DbFiles
  import opened DbEffects
  import opened DbBytes
  import opened DbSpec
  import opened DbProcesses
  import opened DbInvariant
  import opened DbSteps
  import opened DbSearchSteps
  import opened DbWriteSteps

  /** The data blanked, and the gap in the chain already bridged. */
  function CutFiles(f: Files, me: Proc): Files {
    var blanks := Blanks(if me.rec.datlen == 0 then 0 else me.rec.datlen - 1);
    SetPtr(PutData(f, me.rec.datoff, blanks), me.ptroff, me.rec.ptr)
  }

  function Cut(hash: Hasher, s: Sys, p: nat): Sys
    requires p < |s.procs|
  {
    var s' := StepDelData(hash, s, p);
    s'.(files := CutFiles(s.files, s.procs[p]))
  }

  function Bridged(s: Sys, p: nat): Sys
    requires p < |s.procs|
  {
    Set(s, p, s.procs[p].(pc := DelUnlock))
  }

  lemma CutPlace(hash: Hasher, f: Files, g: Shape, m: Entries, me: Proc, p: nat)
    requires BeforeOf(hash, f, g, m, me, p) == Firm && me.pc == DelData
    ensures var k := 1 + ChainOf(hash, me.op);
            && k < NLIST == |g.lists| && me.pos < |g.lists[k]| && me.off == g.lists[k][me.pos]
            && me.off in f.recs && f.recs[me.off] == me.rec && me.off in g.owner && g.owner[me.off] == k
            && me.ptroff == Node(k, g.lists[k], me.pos) && me.ptroff != me.off
            && (me.ptroff in f.recs ==> me.ptroff in g.owner && g.owner[me.ptroff] == k)
            && me.rec.datoff in f.dat && me.rec.datlen == |f.dat[me.rec.datoff]| + 1
            && me.rec.ptr == Elem(g.lists[k], me.pos + 1)
  {
    hide BeforeOf;
    LocalFact(hash, f, g, m, me, p);
    SoundFact(hash, f, g, m, me, p);
    var k := 1 + ChainOf(hash, me.op);
    NodePlaced(f, g, k, me.pos);
    NodePlaced(f, g, k, me.pos + 1);
    NodesDiffer(f, g, k, me.pos, k, me.pos + 1);
    assert Linked(f, k, g.lists[k]);
    assert PtrAt(f, Node(k, g.lists[k], me.pos + 1)) == Elem(g.lists[k], me.pos + 1);
  }

  lemma CutSound(hash: Hasher, f: Files, g: Shape, m: Entries, me: Proc, p: nat)
    requires BeforeOf(hash, f, g, m, me, p) == Firm && me.pc == DelData
    requires var k := 1 + ChainOf(hash, me.op); k < |g.lists| && me.pos < |g.lists[k]|
    ensures Sound(CutFiles(f, me), Unlinked(g, 1 + ChainOf(hash, me.op), me.pos, p))
  {
    hide BeforeOf;
    CutPlace(hash, f, g, m, me, p);
    assert Sound(f, g) by { SoundFact(hash, f, g, m, me, p); }
    var data := Blanks(me.rec.datlen - 1);
    PutDataSound(f, g, me.rec.datoff, data);
    UnlinkSound(PutData(f, me.rec.datoff, data), g, 1 + ChainOf(hash, me.op), me.pos, p);
  }

  lemma CutElsewhere(hash: Hasher, f: Files, g: Shape, m: Entries, me: Proc, p: nat, o: nat)
    requires BeforeOf(hash, f, g, m, me, p) == Firm && me.pc == DelData && o in f.recs && o != me.off
    ensures SameEntry(f, CutFiles(f, me), o) && (o != me.ptroff ==> SameRecord(f, CutFiles(f, me), o))
  {
    hide BeforeOf;
    CutPlace(hash, f, g, m, me, p);
    var data := Blanks(me.rec.datlen - 1);
    assert SameRecord(f, PutData(f, me.rec.datoff, data), o) && f.recs[o].datoff in f.dat by {
      SoundFact(hash, f, g, m, me, p);
      DataElsewhere(f, g, me.off, data, o);
    }
    SetPtrKeeps(PutData(f, me.rec.datoff, data), me.ptroff, me.rec.ptr, o);
  }

  lemma CutBlank(hash: Hasher, f: Files, g: Shape, m: Entries, me: Proc, p: nat)
    requires BeforeOf(hash, f, g, m, me, p) == Firm && me.pc == DelData
    requires var k := 1 + ChainOf(hash, me.op); k < |g.lists| && me.pos < |g.lists[k]|
    ensures var f' := CutFiles(f, me);
            && InTable(hash) && Tiled(f') && Disjoint(f') && PlacesKept(f, f')
            && FreeBlank(f', Unlinked(g, 1 + ChainOf(hash, me.op), me.pos, p))
  {
    hide BeforeOf;
    CutPlace(hash, f, g, m, me, p);
    var f1 := PutData(f, me.rec.datoff, Blanks(me.rec.datlen - 1));
    assert Tiled(f1) && Disjoint(f1) && PlacesKept(f, f1) by {
      TiledFact(hash, f, g, m, me, p);
      SameSizesPlaces(f, f1);
      DisjointSame(f, f1);
    }
    PtrPlaces(f1, me.ptroff, me.rec.ptr);
    BlankFact(hash, f, g, m, me, p);
    PlacedFact(hash, f, g, m, me, p);
    PtrBlank(f1, me.ptroff, me.rec.ptr, Unlinked(g, 1 + ChainOf(hash, me.op), me.pos, p));
  }

  lemma CutSturdy(hash: Hasher, f: Files, g: Shape, m: Entries, me: Proc, p: nat)
    requires BeforeOf(hash, f, g, m, me, p) == Firm && me.pc == DelData
    requires var k := 1 + ChainOf(hash, me.op); k < |g.lists| && me.pos < |g.lists[k]|
    ensures Sturdy(hash, f, CutFiles(f, me), Unlinked(g, 1 + ChainOf(hash, me.op), me.pos, p)) == Firm
  {
    hide BeforeOf;
    CutSound(hash, f, g, m, me, p);
    CutBlank(hash, f, g, m, me, p);
  }

  lemma CutExtents(hash: Hasher, f: Files, g: Shape, m: Entries, me: Proc, p: nat, g': Shape)
    requires BeforeOf(hash, f, g, m, me, p) == Firm && me.pc == DelData && g'.extents == g.extents
    ensures ExtentsSpared(p, f, g, CutFiles(f, me), g')
  {
    hide BeforeOf;
    CutPlace(hash, f, g, m, me, p);
    assert g.extents[me.rec.datoff] == InRecord(me.off) && me.rec.datoff in g.extents by {
      DataFact(hash, f, g, m, me, p);
    }
  }

  lemma CutRecords(hash: Hasher, f: Files, g: Shape, m: Entries, me: Proc, p: nat)
    requires BeforeOf(hash, f, g, m, me, p) == Firm && me.pc == DelData
    requires var k := 1 + ChainOf(hash, me.op); k < |g.lists| && me.pos < |g.lists[k]|
    ensures RecordsSpared(hash, me, p, f, g, CutFiles(f, me), Unlinked(g, 1 + ChainOf(hash, me.op), me.pos, p))
  {
    hide BeforeOf;
    CutPlace(hash, f, g, m, me, p);
    var k := 1 + ChainOf(hash, me.op);
    assert MayWrite(hash, me, k) by { LocalFact(hash, f, g, m, me, p); }
    forall o | o in f.recs && Foreign(hash, me, p, g, o) ensures SameRecord(f, CutFiles(f, me), o) {
      CutElsewhere(hash, f, g, m, me, p, o);
    }
  }

  lemma CutSparing(hash: Hasher, f: Files, g: Shape, m: Entries, me: Proc, p: nat)
    requires BeforeOf(hash, f, g, m, me, p) == Firm && me.pc == DelData
    requires var k := 1 + ChainOf(hash, me.op); k < |g.lists| && me.pos < |g.lists[k]|
    ensures Sparing(hash, me, p, f, g, CutFiles(f, me), Unlinked(g, 1 + ChainOf(hash, me.op), me.pos, p)) == Firm
  {
    hide BeforeOf;
    var k := 1 + ChainOf(hash, me.op);
    CutRecords(hash, f, g, m, me, p);
    CutExtents(hash, f, g, m, me, p, Unlinked(g, k, me.pos, p));
    assert MayWrite(hash, me, k) by { LocalFact(hash, f, g, m, me, p); }
    assert ListsSpared(hash, me, g, Unlinked(g, k, me.pos, p));
  }

  lemma CutSettles(hash: Hasher, f: Files, g: Shape, m: Entries, me: Proc, p: nat)
    requires BeforeOf(hash, f, g, m, me, p) == Firm && me.pc == DelData
    requires var k := 1 + ChainOf(hash, me.op); k < |g.lists| && me.pos < |g.lists[k]|
    ensures Settled(g, Unlinked(g, 1 + ChainOf(hash, me.op), me.pos, p), p, me, me.(pc := DelFree)) == Firm
  {
    hide BeforeOf;
    CutPlace(hash, f, g, m, me, p);
    OwnFact(hash, f, g, m, me, p);
    RecordSettles(g, Unlinked(g, 1 + ChainOf(hash, me.op), me.pos, p), p, me, me.(pc := DelFree), me.off);
  }

  lemma CutBridging(k: nat, g: Shape, me: Proc, p: nat)
    requires k < |g.lists| && me.pos < |g.lists[k]|
    requires me.ptroff == Node(k, g.lists[k], me.pos) && me.rec.ptr == Elem(g.lists[k], me.pos + 1)
    ensures Bridging(k, Unlinked(g, k, me.pos, p).lists[k], me.(pc := DelFree))
  {
  }

  lemma CutMine(f: Files, k: nat, g: Shape, me: Proc, p: nat)
    requires k < |g.lists| && me.pos < |g.lists[k]| && me.off == g.lists[k][me.pos] && me.ptroff != me.off
    requires me.off in f.recs && f.recs[me.off] == me.rec
    ensures Mine(CutFiles(f, me), Unlinked(g, k, me.pos, p), me.off, p) && CutFiles(f, me).recs[me.off] == me.rec
  {
  }

  lemma CutKnowing(hash: Hasher, f: Files, g: Shape, m: Entries, me: Proc, p: nat)
    requires BeforeOf(hash, f, g, m, me, p) == Firm && me.pc == DelData
    requires var k := 1 + ChainOf(hash, me.op); k < |g.lists| && me.pos < |g.lists[k]|
    ensures var g' := Unlinked(g, 1 + ChainOf(hash, me.op), me.pos, p);
            Knowing(hash, CutFiles(f, me), g', m, me.(pc := DelFree), p) == Firm
  {
    hide BeforeOf;
    CutPlace(hash, f, g, m, me, p);
    assert Succeeds(m, me.op) by { LocalFact(hash, f, g, m, me, p); }
    CutBridging(1 + ChainOf(hash, me.op), g, me, p);
    CutMine(f, 1 + ChainOf(hash, me.op), g, me, p);
    assert Local(hash, CutFiles(f, me), Unlinked(g, 1 + ChainOf(hash, me.op), me.pos, p), m, me.(pc := DelFree), p);
  }

  lemma CutAgrees(hash: Hasher, f: Files, g: Shape, m: Entries, me: Proc, p: nat)
    requires BeforeOf(hash, f, g, m, me, p) == Firm && me.pc == DelData
    requires var k := 1 + ChainOf(hash, me.op); k < |g.lists| && me.pos < |g.lists[k]|
    ensures var h := ChainOf(hash, me.op); var ys := Without(g.lists[1 + h], me.pos);
            Agrees(hash, f, ys, h, m - {KeyOf(me.op)}) && me.off !in ys && forall o :: o in ys ==> o in f.recs
  {
    hide BeforeOf;
    var h := ChainOf(hash, me.op);
    CutPlace(hash, f, g, m, me, p);
    ViewFact(hash, f, g, m, me, p);
    SoundFact(hash, f, g, m, me, p);
    assert f.recs[me.off].key == KeyOf(me.op) by { LocalFact(hash, f, g, m, me, p); }
    AgreesAfterUnlink(hash, f, g, h, me.pos, m);
    WithoutElems(g.lists[1 + h], me.pos);
  }

  lemma CutView(hash: Hasher, f: Files, g: Shape, m: Entries, me: Proc, p: nat)
    requires BeforeOf(hash, f, g, m, me, p) == Firm && me.pc == DelData
    requires var k := 1 + ChainOf(hash, me.op); k < |g.lists| && me.pos < |g.lists[k]|
    ensures var g' := Unlinked(g, 1 + ChainOf(hash, me.op), me.pos, p);
            Viewing(hash, CutFiles(f, me), g', m, me.(pc := DelFree)) == Firm
  {
    hide BeforeOf;
    CutPlace(hash, f, g, m, me, p);
    CutAgrees(hash, f, g, m, me, p);
    var h := ChainOf(hash, me.op);
    var ys, f', m' := Without(g.lists[1 + h], me.pos), CutFiles(f, me), m - {KeyOf(me.op)};
    forall o | o in ys ensures SameEntry(f, f', o) { CutElsewhere(hash, f, g, m, me, p, o); }
    AgreesFrame(hash, f, f', ys, h, m', m');
    assert ChainAgreesWith(hash, f', Unlinked(g, 1 + h, me.pos, p), me.(pc := DelFree), m);
  }

  lemma KeepsCut(hash: Hasher, s: Sys, p: nat)
    requires StandingOf(hash, s) == Firm && p < |s.procs| && s.procs[p].pc == DelData
    ensures StandingOf(hash, Cut(hash, s, p)) == Firm
  {
    hide StandingOf, BeforeOf, Sturdy, Settled, Sparing, Knowing, Viewing, World, Holdings, Conduct, CutFiles,
         Unlinked, Local;
    var me := s.procs[p];
    BeforeStore(hash, s, p);
    assert 1 + ChainOf(hash, me.op) < |s.g.lists| && me.pos < |s.g.lists[1 + ChainOf(hash, me.op)]| by {
      CutPlace(hash, s.files, s.g, s.m, me, p);
    }
    var f', g', me' := CutFiles(s.files, me), Unlinked(s.g, 1 + ChainOf(hash, me.op), me.pos, p), me.(pc := DelFree);
    CutSturdy(hash, s.files, s.g, s.m, me, p);
    CutSparing(hash, s.files, s.g, s.m, me, p);
    CutSettles(hash, s.files, s.g, s.m, me, p);
    CutKnowing(hash, s.files, s.g, s.m, me, p);
    CutView(hash, s.files, s.g, s.m, me, p);
    Write(hash, s, f', g', p, me');
  }

  // ---- Blanking the record ----

  function BlankedRec(me: Proc): Rec { Rec(me.free, Blanks(|me.rec.key|), me.rec.datoff, me.rec.datlen) }

  lemma DelRecRest(hash: Hasher, f: Files, g: Shape, m: Entries, me: Proc, p: nat)
    requires BeforeOf(hash, f, g, m, me, p) == Firm && me.pc == DelRec
    ensures Sturdy(hash, f, PutRec(f, me.off, BlankedRec(me)), g) == Firm
    ensures Sparing(hash, me, p, f, g, PutRec(f, me.off, BlankedRec(me)), g) == Firm
  {
    hide BeforeOf;
    Facts(hash, f, g, m, me, p);
    PutRecSturdy(hash, f, g, me.off, p, BlankedRec(me));
    PutRecSparing(hash, me, p, f, g, BlankedRec(me));
  }

  lemma DelRecView(hash: Hasher, f: Files, g: Shape, m: Entries, me: Proc, p: nat)
    requires BeforeOf(hash, f, g, m, me, p) == Firm && me.pc == DelRec
    ensures Viewing(hash, PutRec(f, me.off, BlankedRec(me)), g, m, me.(pc := DelFreeHead)) == Firm
  {
    hide BeforeOf;
    LocalFact(hash, f, g, m, me, p);
    var f' := PutRec(f, me.off, BlankedRec(me));
    OwnOffChain(hash, f, g, m, me, p);
    forall o | o in Chain(hash, g, me) ensures SameRecord(f, f', o) {}
    ViewKept(hash, f, g, m, me, p, f', g, me.(pc := DelFreeHead));
  }

  lemma DelRecKnowing(hash: Hasher, f: Files, g: Shape, m: Entries, me: Proc, p: nat)
    requires BeforeOf(hash, f, g, m, me, p) == Firm && me.pc == DelRec
    ensures Knowing(hash, PutRec(f, me.off, BlankedRec(me)), g, m, me.(pc := DelFreeHead), p) == Firm
  {
    hide BeforeOf;
    LocalFact(hash, f, g, m, me, p);
    assert Local(hash, PutRec(f, me.off, BlankedRec(me)), g, m, me.(pc := DelFreeHead), p);
  }

  lemma KeepsDelRec(hash: Hasher, s: Sys, p: nat)
    requires StandingOf(hash, s) == Firm && p < |s.procs| && s.procs[p].pc == DelRec
    ensures StandingOf(hash, StepDelRec(s, p)) == Firm
  {
    hide StandingOf, BeforeOf, Sturdy, Settled, Sparing, Knowing, Viewing;
    var me := s.procs[p];
    BeforeStore(hash, s, p);
    var me' := me.(pc := DelFreeHead);
    DelRecRest(hash, s.files, s.g, s.m, me, p);
    DelRecView(hash, s.files, s.g, s.m, me, p);
    DelRecKnowing(hash, s.files, s.g, s.m, me, p);
    SameOwn(hash, s.files, s.g, s.m, me, p, me');
    Write(hash, s, PutRec(s.files, me.off, BlankedRec(me)), s.g, p, me');
  }

  // ---- Putting the record on the free list ----

  lemma RetireSturdy(hash: Hasher, f: Files, g: Shape, m: Entries, me: Proc, p: nat)
    requires BeforeOf(hash, f, g, m, me, p) == Firm && me.pc == DelFreeHead
    ensures |g.lists| == NLIST && Sturdy(hash, f, SetPtr(f, Slot(FREE), me.off), Pushed(g, FREE, me.off)) == Firm
  {
    hide BeforeOf, Sound;
    LocalFact(hash, f, g, m, me, p);
    assert Sound(SetPtr(f, Slot(FREE), me.off), Pushed(g, FREE, me.off)) && InTable(hash) by {
      SoundFact(hash, f, g, m, me, p);
      PushSound(f, g, FREE, me.off);
    }
    TiledFact(hash, f, g, m, me, p);
    BlankFact(hash, f, g, m, me, p);
    PtrPlaces(f, Slot(FREE), me.off);
    PtrBlank(f, Slot(FREE), me.off, Pushed(g, FREE, me.off));
  }

  lemma RetireSparing(hash: Hasher, f: Files, g: Shape, m: Entries, me: Proc, p: nat)
    requires BeforeOf(hash, f, g, m, me, p) == Firm && me.pc == DelFreeHead && |g.lists| == NLIST
    ensures Sparing(hash, me, p, f, g, SetPtr(f, Slot(FREE), me.off), Pushed(g, FREE, me.off)) == Firm
  {
    hide BeforeOf;
    HeadOnly(hash, f, g, m, me, p, FREE, me.off);
    assert g.owner[me.off] == Priv(p) && me.off in g.owner by { LocalFact(hash, f, g, m, me, p); }
    assert g.owner.Keys == f.recs.Keys by { PlacedFact(hash, f, g, m, me, p); }
    PushSpares(hash, f, g, SetPtr(f, Slot(FREE), me.off), FREE, me, p);
  }

  lemma RetireSettles(hash: Hasher, f: Files, g: Shape, m: Entries, me: Proc, p: nat)
    requires BeforeOf(hash, f, g, m, me, p) == Firm && me.pc == DelFreeHead && |g.lists| == NLIST
    ensures Settled(g, Pushed(g, FREE, me.off), p, me, me.(pc := DelUnlink)) == Firm
  {
    hide BeforeOf;
    OwnFact(hash, f, g, m, me, p);
    LocalFact(hash, f, g, m, me, p);
    RecordSettles(g, Pushed(g, FREE, me.off), p, me, me.(pc := DelUnlink), me.off);
  }

  lemma RetireView(hash: Hasher, f: Files, g: Shape, m: Entries, me: Proc, p: nat)
    requires BeforeOf(hash, f, g, m, me, p) == Firm && me.pc == DelFreeHead && |g.lists| == NLIST
    ensures Viewing(hash, SetPtr(f, Slot(FREE), me.off), Pushed(g, FREE, me.off), m, me.(pc := DelUnlink)) == Firm
  {
    hide BeforeOf;
    var f' := SetPtr(f, Slot(FREE), me.off);
    HeadOnly(hash, f, g, m, me, p, FREE, me.off);
    assert 1 + ChainOf(hash, me.op) < |g.lists| by { LocalFact(hash, f, g, m, me, p); }
    forall o | o in Chain(hash, g, me) ensures SameRecord(f, f', o) {
      SoundFact(hash, f, g, m, me, p);
      ListWalkable(f, g, 1 + ChainOf(hash, me.op));
    }
    ViewKept(hash, f, g, m, me, p, f', Pushed(g, FREE, me.off), me.(pc := DelUnlink));
  }

  lemma RetireKnowing(hash: Hasher, f: Files, g: Shape, m: Entries, me: Proc, p: nat)
    requires BeforeOf(hash, f, g, m, me, p) == Firm && me.pc == DelFreeHead && |g.lists| == NLIST
    ensures Knowing(hash, SetPtr(f, Slot(FREE), me.off), Pushed(g, FREE, me.off), m, me.(pc := DelUnlink), p) == Firm
  {
    hide BeforeOf;
    LocalFact(hash, f, g, m, me, p);
    assert Local(hash, SetPtr(f, Slot(FREE), me.off), Pushed(g, FREE, me.off), m, me.(pc := DelUnlink), p);
  }

  lemma KeepsDelFreeHead(hash: Hasher, s: Sys, p: nat)
    requires StandingOf(hash, s) == Firm && p < |s.procs| && s.procs[p].pc == DelFreeHead
    ensures StandingOf(hash, StepDelFreeHead(s, p)) == Firm
  {
    hide StandingOf, BeforeOf, Sturdy, Settled, Sparing, Knowing, Viewing;
    var me := s.procs[p];
    BeforeStore(hash, s, p);
    var f', g', me' := SetPtr(s.files, Slot(FREE), me.off), Pushed(s.g, FREE, me.off), me.(pc := DelUnlink);
    RetireSturdy(hash, s.files, s.g, s.m, me, p);
    RetireSparing(hash, s.files, s.g, s.m, me, p);
    RetireSettles(hash, s.files, s.g, s.m, me, p);
    RetireView(hash, s.files, s.g, s.m, me, p);
    RetireKnowing(hash, s.files, s.g, s.m, me, p);
    Write(hash, s, f', g', p, me');
  }

  lemma BridgedAmbles(hash: Hasher, f: Files, g: Shape, m: Entries, me: Proc, p: nat)
    requires Poise(hash, f, g, m, me, p) == Firm && me.pc == DelUnlink
    ensures Ambling(hash, f, g, m, me, me.(pc := DelUnlock), p) == Firm
  {
    assert Opened(true);
  }

  lemma KeepsBridged(hash: Hasher, s: Sys, p: nat)
    requires StandingOf(hash, s) == Firm && p < |s.procs| && s.procs[p].pc == DelUnlink
    ensures StandingOf(hash, Bridged(s, p)) == Firm
  {
    hide StandingOf, Ambling, Poise;
    Poises(hash, s, p);
    BridgedAmbles(hash, s.files, s.g, s.m, s.procs[p], p);
    Stroll(hash, s, Bridged(s, p), p, s.procs[p].(pc := DelUnlock));
  }
}
