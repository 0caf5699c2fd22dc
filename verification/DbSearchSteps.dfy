/** The steps that look and do not write. */
module DbSearchSteps {
  import opened Options
  import opened Seals
  import opened CText
  import opened DbFormat
  import opened DbFiles
  import opened DbEffects
  import opened DbBytes
  import opened DbSpec
  import opened DbProcesses
  import opened DbInvariant
  import opened DbSteps

  lemma Knows(hash: Hasher, s: Sys, p: nat)
    requires StandingOf(hash, s) == Firm && p < |s.procs|
    ensures Local(hash, s.files, s.g, s.m, s.procs[p], p)
    ensures AtRecord(s.files, s.procs[p].cursor) && (s.procs[p].op.StoreOp? ==> s.procs[p].op.flag != BadFlag)
    ensures 1 + ChainOf(hash, s.procs[p].op) < NLIST == |s.g.lists|
  {
    hide StandingOf;
    Look(hash, s);
  }

  lemma Head(hash: Hasher, s: Sys, k: nat)
    requires StandingOf(hash, s) == Firm && k < NLIST
    ensures |s.g.lists| == NLIST && PtrAt(s.files, Slot(k)) == Elem(s.g.lists[k], 0)
  {
    hide StandingOf;
    Look(hash, s);
    HeadIs(s.files, s.g, k);
  }

  /** What stands behind element pos of a list. */
  lemma StepOn(hash: Hasher, s: Sys, k: nat, pos: nat)
    requires StandingOf(hash, s) == Firm && k < NLIST == |s.g.lists| && pos <= |s.g.lists[k]|
    ensures Elem(s.g.lists[k], pos) == 0 <==> pos == |s.g.lists[k]|
    ensures var xs := s.g.lists[k];
            pos < |xs| ==>
              && xs[pos] in s.files.recs && Node(k, xs, pos + 1) == xs[pos]
              && s.files.recs[xs[pos]].ptr == Elem(xs, pos + 1)
  {
    hide StandingOf;
    Look(hash, s);
    var f, g := s.files, s.g;
    ElemNonZero(f, g, k, pos);
    if pos < |g.lists[k]| {
      NodePlaced(f, g, k, pos + 1);
      assert Linked(f, k, g.lists[k]);
      assert PtrAt(f, Node(k, g.lists[k], pos + 1)) == Elem(g.lists[k], pos + 1);
    }
  }

  lemma Poises(hash: Hasher, s: Sys, p: nat)
    requires StandingOf(hash, s) == Firm && p < |s.procs|
    ensures Poise(hash, s.files, s.g, s.m, s.procs[p], p) == Firm
    ensures 1 + ChainOf(hash, s.procs[p].op) < NLIST == |s.g.lists|
  {
    hide StandingOf;
    Look(hash, s);
  }

  lemma IdleAmbles(hash: Hasher, f: Files, g: Shape, m: Entries, me: Proc, me': Proc, p: nat)
    requires Poise(hash, f, g, m, me, p) == Firm && me.pc == Idle && me'.pc in {Idle, LockChain, ScanLock}
    requires AtRecord(f, me'.cursor) && (me'.op.StoreOp? ==> me'.op.flag != BadFlag)
    ensures Ambling(hash, f, g, m, me, me', p) == Firm
  {
    assert Opened(true);
  }

  lemma KeepsInvoke(hash: Hasher, s: Sys, p: nat, op: Op)
    requires StandingOf(hash, s) == Firm && CanInvoke(s, p, op)
    ensures StandingOf(hash, Invoke(s, p, op)) == Firm
  {
    hide StandingOf, Ambling, Poise;
    Poises(hash, s, p);
    Knows(hash, s, p);
    var me' := s.procs[p].(pc := LockChain, op := op);
    IdleAmbles(hash, s.files, s.g, s.m, s.procs[p], me', p);
    Stroll(hash, s, Invoke(s, p, op), p, me');
  }

  lemma KeepsInvokeScan(hash: Hasher, s: Sys, p: nat)
    requires StandingOf(hash, s) == Firm && p < |s.procs| && s.procs[p].pc == Idle
    ensures StandingOf(hash, InvokeScan(s, p)) == Firm
  {
    hide StandingOf, Ambling, Poise;
    Poises(hash, s, p);
    Knows(hash, s, p);
    var me' := s.procs[p].(pc := ScanLock);
    IdleAmbles(hash, s.files, s.g, s.m, s.procs[p], me', p);
    Stroll(hash, s, InvokeScan(s, p), p, me');
  }

  lemma KeepsInvokeRewind(hash: Hasher, s: Sys, p: nat)
    requires StandingOf(hash, s) == Firm && p < |s.procs| && s.procs[p].pc == Idle
    ensures StandingOf(hash, InvokeRewind(s, p)) == Firm
  {
    hide StandingOf, Ambling, Poise;
    Poises(hash, s, p);
    Knows(hash, s, p);
    assert AtRecord(s.files, FIRST_REC) by { Look(hash, s); }
    var me' := s.procs[p].(cursor := FIRST_REC);
    IdleAmbles(hash, s.files, s.g, s.m, s.procs[p], me', p);
    Stroll(hash, s, InvokeRewind(s, p), p, me');
  }

  // ---- Reading the head of a list ----

  // A pointer read from the head of the own chain, or of the free list, is what the process has to know.

  lemma ReadHeadAmbles(hash: Hasher, f: Files, g: Shape, m: Entries, me: Proc, p: nat, v: nat)
    requires Poise(hash, f, g, m, me, p) == Firm && me.pc == ReadHead && v == Elem(Chain(hash, g, me), 0)
    ensures Ambling(hash, f, g, m, me, me.(pc := Examine, off := v, pos := 0), p) == Firm
  {
    assert Opened(true);
  }

  lemma InsHeadAmbles(hash: Hasher, f: Files, g: Shape, m: Entries, me: Proc, p: nat, v: nat)
    requires Poise(hash, f, g, m, me, p) == Firm && me.pc == InsHead && v == Elem(Chain(hash, g, me), 0)
    ensures Ambling(hash, f, g, m, me, me.(pc := LockFree, ptr := v), p) == Firm
  {
    assert Opened(true);
  }

  lemma RepHeadAmbles(hash: Hasher, f: Files, g: Shape, m: Entries, me: Proc, p: nat, v: nat)
    requires Poise(hash, f, g, m, me, p) == Firm && me.pc == RepHead && v == Elem(Chain(hash, g, me), 0)
    ensures Ambling(hash, f, g, m, me, me.(pc := LockDat, ptr := v), p) == Firm
  {
    assert Opened(true);
  }

  lemma FreeHeadAmbles(hash: Hasher, f: Files, g: Shape, m: Entries, me: Proc, p: nat, v: nat)
    requires Poise(hash, f, g, m, me, p) == Firm && me.pc == FreeHead && v == Elem(Free(g), 0)
    ensures Ambling(hash, f, g, m, me, me.(pc := FreeExamine, ptroff := Slot(FREE), off := v, pos := 0), p) == Firm
  {
    assert Opened(true);
  }

  lemma DelFreeLocal(hash: Hasher, f: Files, g: Shape, m: Entries, me: Proc, p: nat, v: nat)
    requires Local(hash, f, g, m, me, p) && me.pc == DelFree && v == Elem(Free(g), 0)
    ensures Local(hash, f, g, m, me.(pc := DelRec, free := v), p)
  {
  }

  lemma DelFreeAmbles(hash: Hasher, f: Files, g: Shape, m: Entries, me: Proc, p: nat, v: nat)
    requires Poise(hash, f, g, m, me, p) == Firm && me.pc == DelFree && v == Elem(Free(g), 0)
    ensures Ambling(hash, f, g, m, me, me.(pc := DelRec, free := v), p) == Firm
  {
    hide Local;
    assert Opened(true);
    DelFreeLocal(hash, f, g, m, me, p, v);
  }

  lemma KeepsReadHead(hash: Hasher, s: Sys, p: nat)
    requires StandingOf(hash, s) == Firm && p < |s.procs| && s.procs[p].pc == ReadHead
    ensures StandingOf(hash, StepReadHead(s, p)) == Firm
  {
    hide StandingOf, Ambling, Poise;
    Poises(hash, s, p);
    assert s.procs[p].ptroff == Slot(1 + ChainOf(hash, s.procs[p].op)) by { Knows(hash, s, p); }
    Head(hash, s, 1 + ChainOf(hash, s.procs[p].op));
    ReadHeadAmbles(hash, s.files, s.g, s.m, s.procs[p], p, PtrAt(s.files, s.procs[p].ptroff));
    Stroll(hash, s, StepReadHead(s, p), p, StepReadHead(s, p).procs[p]);
  }

  lemma KeepsInsHead(hash: Hasher, s: Sys, p: nat)
    requires StandingOf(hash, s) == Firm && p < |s.procs| && s.procs[p].pc == InsHead
    ensures StandingOf(hash, StepInsHead(hash, s, p)) == Firm
  {
    hide StandingOf, Ambling, Poise;
    Poises(hash, s, p);
    Head(hash, s, 1 + ChainOf(hash, s.procs[p].op));
    InsHeadAmbles(hash, s.files, s.g, s.m, s.procs[p], p, PtrAt(s.files, Slot(1 + ChainOf(hash, s.procs[p].op))));
    Stroll(hash, s, StepInsHead(hash, s, p), p, StepInsHead(hash, s, p).procs[p]);
  }

  lemma KeepsRepHead(hash: Hasher, s: Sys, p: nat)
    requires StandingOf(hash, s) == Firm && p < |s.procs| && s.procs[p].pc == RepHead
    ensures StandingOf(hash, StepRepHead(hash, s, p)) == Firm
  {
    hide StandingOf, Ambling, Poise;
    Poises(hash, s, p);
    Head(hash, s, 1 + ChainOf(hash, s.procs[p].op));
    RepHeadAmbles(hash, s.files, s.g, s.m, s.procs[p], p, PtrAt(s.files, Slot(1 + ChainOf(hash, s.procs[p].op))));
    Stroll(hash, s, StepRepHead(hash, s, p), p, StepRepHead(hash, s, p).procs[p]);
  }

  lemma KeepsFreeHead(hash: Hasher, s: Sys, p: nat)
    requires StandingOf(hash, s) == Firm && p < |s.procs| && s.procs[p].pc == FreeHead
    ensures StandingOf(hash, StepFreeHead(s, p)) == Firm
  {
    hide StandingOf, Ambling, Poise;
    Poises(hash, s, p);
    Head(hash, s, FREE);
    FreeHeadAmbles(hash, s.files, s.g, s.m, s.procs[p], p, PtrAt(s.files, Slot(FREE)));
    Stroll(hash, s, StepFreeHead(s, p), p, StepFreeHead(s, p).procs[p]);
  }

  lemma KeepsDelFree(hash: Hasher, s: Sys, p: nat)
    requires StandingOf(hash, s) == Firm && p < |s.procs| && s.procs[p].pc == DelFree
    ensures StandingOf(hash, StepDelFree(s, p)) == Firm
  {
    hide StandingOf, Ambling, Poise;
    Poises(hash, s, p);
    Head(hash, s, FREE);
    DelFreeAmbles(hash, s.files, s.g, s.m, s.procs[p], p, PtrAt(s.files, Slot(FREE)));
    Stroll(hash, s, StepDelFree(s, p), p, StepDelFree(s, p).procs[p]);
  }

  // ---- The search of a chain ----

  /** While a process searches, or reads what it has found, its chain stands for the committed map. */
  lemma SearchView(hash: Hasher, s: Sys, p: nat)
    requires StandingOf(hash, s) == Firm && p < |s.procs| && s.procs[p].pc in {Examine, ReadData}
    ensures var h := ChainOf(hash, s.procs[p].op);
            1 + h < |s.g.lists| && Agrees(hash, s.files, s.g.lists[1 + h], h, s.m)
  {
    hide StandingOf;
    var h := ChainOf(hash, s.procs[p].op);
    assert s.procs[p].pc == ReadData ==> s.procs[p].op.FetchOp? by { Knows(hash, s, p); }
    assert ChainView(hash, s, h) && ChainLocks(hash, s) by { Look(hash, s); }
    var r, w := Reader(s, h, p), Writer(s, h, p);
  }

  lemma MissLocal(hash: Hasher, f: Files, g: Shape, m: Entries, me: Proc, p: nat)
    requires me.pc == Examine && KeyOf(me.op) !in m && (me.op.StoreOp? ==> me.op.flag != BadFlag)
    ensures Local(hash, f, g, m, AfterMiss(me), p)
  {
  }

  lemma MissAmbles(hash: Hasher, f: Files, g: Shape, m: Entries, me: Proc, p: nat)
    requires Poise(hash, f, g, m, me, p) == Firm && me.pc == Examine && KeyOf(me.op) !in m
    ensures Ambling(hash, f, g, m, me, AfterMiss(me), p) == Firm
  {
    hide Local;
    assert Opened(true);
    MissLocal(hash, f, g, m, me, p);
    assert m - {KeyOf(me.op)} == m;
  }

  lemma KeepsMiss(hash: Hasher, s: Sys, p: nat)
    requires StandingOf(hash, s) == Firm && p < |s.procs| && s.procs[p].pc == Examine && s.procs[p].off == 0
    ensures StandingOf(hash, StepExamine(s, p)) == Firm
  {
    hide StandingOf, Ambling, Poise;
    Poises(hash, s, p);
    MissedKey(hash, s, p);
    MissAmbles(hash, s.files, s.g, s.m, s.procs[p], p);
    Stroll(hash, s, StepExamine(s, p), p, AfterMiss(s.procs[p]));
  }

  lemma MissedKey(hash: Hasher, s: Sys, p: nat)
    requires StandingOf(hash, s) == Firm && p < |s.procs| && s.procs[p].pc == Examine && s.procs[p].off == 0
    ensures KeyOf(s.procs[p].op) !in s.m
  {
    hide StandingOf;
    var me := s.procs[p];
    var h := ChainOf(hash, me.op);
    SearchView(hash, s, p);
    assert Walking(1 + h, s.g.lists[1 + h], me) && Passed(s.files, s.g.lists[1 + h], me.pos, KeyOf(me.op))
           && 1 + h < NLIST == |s.g.lists| by {
      Knows(hash, s, p);
    }
    StepOn(hash, s, 1 + h, me.pos);
    SearchMissed(hash, s.files, s.g.lists[1 + h], h, s.m, KeyOf(me.op));
  }

  lemma HitLocal(hash: Hasher, f: Files, g: Shape, m: Entries, me: Proc, p: nat)
    requires Local(hash, f, g, m, me, p) && me.pc == Examine && KeyOf(me.op) in m
    requires me.op.StoreOp? ==> me.op.flag != BadFlag
    requires me.off in f.recs && f.recs[me.off].key == KeyOf(me.op) && me.pos < |Chain(hash, g, me)|
    ensures Local(hash, f, g, m, AfterHit(me.(rec := f.recs[me.off])), p)
  {
    match me.op
    case FetchOp(_) =>
    case DeleteOp(_) =>
    case StoreOp(_, data, flag) =>
      if flag == DbInsert {
      } else if |data| + 1 != f.recs[me.off].datlen {
      } else {
      }
  }

  lemma HitAmbles(hash: Hasher, f: Files, g: Shape, m: Entries, me: Proc, p: nat)
    requires Poise(hash, f, g, m, me, p) == Firm && me.pc == Examine && KeyOf(me.op) in m
    requires me.off in f.recs && f.recs[me.off].key == KeyOf(me.op) && me.pos < |Chain(hash, g, me)|
    ensures Ambling(hash, f, g, m, me, AfterHit(me.(rec := f.recs[me.off])), p) == Firm
  {
    assert Opened(true);
    HitLocal(hash, f, g, m, me, p);
    hide Local;
  }

  /** The record a search stands at is on its chain, so it stands for an entry. */
  lemma HitKey(hash: Hasher, s: Sys, p: nat)
    requires StandingOf(hash, s) == Firm && p < |s.procs| && s.procs[p].pc == Examine && s.procs[p].off != 0
    ensures s.procs[p].off in s.files.recs && RecAt(s.files, s.procs[p].off).key in s.m
    ensures s.procs[p].pos < |Chain(hash, s.g, s.procs[p])|
    ensures var k := 1 + ChainOf(hash, s.procs[p].op);
            s.files.recs[s.procs[p].off].ptr == Elem(Chain(hash, s.g, s.procs[p]), s.procs[p].pos + 1)
            && Node(k, Chain(hash, s.g, s.procs[p]), s.procs[p].pos + 1) == s.procs[p].off
  {
    hide StandingOf;
    var me := s.procs[p];
    var h := ChainOf(hash, me.op);
    SearchView(hash, s, p);
    assert Walking(1 + h, s.g.lists[1 + h], me) && 1 + h < NLIST == |s.g.lists| by { Knows(hash, s, p); }
    StepOn(hash, s, 1 + h, me.pos);
    assert me.off in s.g.lists[1 + h];
  }

  lemma KeepsHit(hash: Hasher, s: Sys, p: nat)
    requires StandingOf(hash, s) == Firm && p < |s.procs| && s.procs[p].pc == Examine && s.procs[p].off != 0
    requires RecAt(s.files, s.procs[p].off).key == KeyOf(s.procs[p].op)
    ensures StandingOf(hash, StepExamine(s, p)) == Firm
  {
    hide StandingOf, Ambling, Poise;
    Poises(hash, s, p);
    HitKey(hash, s, p);
    HitAmbles(hash, s.files, s.g, s.m, s.procs[p], p);
    Stroll(hash, s, StepExamine(s, p), p, AfterHit(s.procs[p].(rec := RecAt(s.files, s.procs[p].off))));
  }

  lemma AdvanceAmbles(hash: Hasher, f: Files, g: Shape, m: Entries, me: Proc, p: nat)
    requires Poise(hash, f, g, m, me, p) == Firm && me.pc == Examine
    requires me.off != 0 && me.off in f.recs && f.recs[me.off].key != KeyOf(me.op) && me.pos < |Chain(hash, g, me)|
    requires f.recs[me.off].ptr == Elem(Chain(hash, g, me), me.pos + 1)
    requires Node(1 + ChainOf(hash, me.op), Chain(hash, g, me), me.pos + 1) == me.off
    ensures Ambling(hash, f, g, m, me, AfterLook(me, RecAt(f, me.off)), p) == Firm
  {
    assert Opened(true);
  }

  lemma KeepsAdvance(hash: Hasher, s: Sys, p: nat)
    requires StandingOf(hash, s) == Firm && p < |s.procs| && s.procs[p].pc == Examine && s.procs[p].off != 0
    requires RecAt(s.files, s.procs[p].off).key != KeyOf(s.procs[p].op)
    ensures StandingOf(hash, StepExamine(s, p)) == Firm
  {
    hide StandingOf, Ambling, Poise;
    Poises(hash, s, p);
    HitKey(hash, s, p);
    AdvanceAmbles(hash, s.files, s.g, s.m, s.procs[p], p);
    Stroll(hash, s, StepExamine(s, p), p, AfterLook(s.procs[p], RecAt(s.files, s.procs[p].off)));
  }

  /** The record a search has found is on the process's chain and stands for the map's entry. */
  lemma FoundData(hash: Hasher, s: Sys, p: nat)
    requires StandingOf(hash, s) == Firm && p < |s.procs| && s.procs[p].pc == ReadData
    ensures s.procs[p].rec.datoff in s.files.dat
    ensures Found(Some(DatAt(s.files, s.procs[p].rec.datoff))) == MapAnswer(s.m, s.procs[p].op)
  {
    hide StandingOf;
    Knows(hash, s, p);
    SearchView(hash, s, p);
    assert s.procs[p].off in s.g.lists[1 + ChainOf(hash, s.procs[p].op)];
  }

  lemma ReadDataAmbles(hash: Hasher, f: Files, g: Shape, m: Entries, me: Proc, p: nat, a: Answer)
    requires Poise(hash, f, g, m, me, p) == Firm && me.pc == ReadData && a == MapAnswer(m, me.op)
    ensures Ambling(hash, f, g, m, me, me.(pc := Unlock, res := a), p) == Firm
  {
    assert Opened(true);
  }

  lemma KeepsReadData(hash: Hasher, s: Sys, p: nat)
    requires StandingOf(hash, s) == Firm && p < |s.procs| && s.procs[p].pc == ReadData
    ensures StandingOf(hash, StepReadData(s, p)) == Firm
  {
    hide StandingOf, Ambling, Poise;
    Poises(hash, s, p);
    FoundData(hash, s, p);
    ReadDataAmbles(hash, s.files, s.g, s.m, s.procs[p], p, Found(Some(DatAt(s.files, s.procs[p].rec.datoff))));
    Stroll(hash, s, StepReadData(s, p), p, StepReadData(s, p).procs[p]);
  }

  // ---- The search of the free list ----

  lemma FreeEndAmbles(hash: Hasher, f: Files, g: Shape, m: Entries, me: Proc, p: nat)
    requires Poise(hash, f, g, m, me, p) == Firm && me.pc == FreeExamine && me.off == 0
    ensures Ambling(hash, f, g, m, me, me.(pc := FreeUnlock), p) == Firm
  {
    assert Opened(true);
  }

  lemma FreeFitAmbles(hash: Hasher, f: Files, g: Shape, m: Entries, me: Proc, p: nat, r: Rec)
    requires Poise(hash, f, g, m, me, p) == Firm && me.pc == FreeExamine && me.pos < |Free(g)|
    requires me.off in f.recs && f.recs[me.off] == r && |r.key| == |KeyOf(me.op)| && r.datlen == |DataOf(me.op)| + 1
    ensures Ambling(hash, f, g, m, me, me.(pc := FreeTake, rec := r), p) == Firm
  {
    assert Opened(true);
  }

  lemma FreeNextAmbles(hash: Hasher, f: Files, g: Shape, m: Entries, me: Proc, p: nat, v: nat)
    requires Poise(hash, f, g, m, me, p) == Firm && me.pc == FreeExamine && me.pos < |Free(g)|
    requires v == Elem(Free(g), me.pos + 1) && Node(FREE, Free(g), me.pos + 1) == me.off
    ensures Ambling(hash, f, g, m, me, me.(ptroff := me.off, off := v, pos := me.pos + 1), p) == Firm
  {
    assert Opened(true);
  }

  lemma KeepsFreeExamine(hash: Hasher, s: Sys, p: nat)
    requires StandingOf(hash, s) == Firm && p < |s.procs| && s.procs[p].pc == FreeExamine
    ensures s.procs[p].off != 0 ==> s.procs[p].off in s.files.recs
    ensures StandingOf(hash, StepFreeExamine(s, p)) == Firm
  {
    hide StandingOf, Ambling, Poise;
    Poises(hash, s, p);
    var me := s.procs[p];
    var r := RecAt(s.files, me.off);
    assert Walking(FREE, Free(s.g), me) by { Knows(hash, s, p); }
    StepOn(hash, s, FREE, me.pos);
    if me.off == 0 {
      FreeEndAmbles(hash, s.files, s.g, s.m, me, p);
    } else if |r.key| == |KeyOf(me.op)| && r.datlen == |DataOf(me.op)| + 1 {
      FreeFitAmbles(hash, s.files, s.g, s.m, me, p, r);
    } else {
      FreeNextAmbles(hash, s.files, s.g, s.m, me, p, r.ptr);
    }
    Stroll(hash, s, StepFreeExamine(s, p), p, AfterFree(me, r));
  }

  // ---- The scan ----

  lemma ScanOn(hash: Hasher, s: Sys, p: nat)
    requires StandingOf(hash, s) == Firm && p < |s.procs|
    ensures var o := s.procs[p].cursor;
            o in s.files.recs ==>
              && AtRecord(s.files, End(s.files, o)) && o in s.g.owner
              && (s.g.owner[o] == FREE ==> AllBlank(s.files.recs[o].key))
  {
    hide StandingOf;
    Look(hash, s);
    AtRecordNext(s.files, s.procs[p].cursor);
  }

  lemma ScanFinds(hash: Hasher, s: Sys, p: nat)
    requires StandingOf(hash, s) == Firm && p < |s.procs| && s.procs[p].pc == ScanData
    ensures s.procs[p].rec.datoff in s.files.dat
  {
    hide StandingOf;
    Knows(hash, s, p);
    assert DataHeld(s.files, s.g) by { Look(hash, s); }
  }

  /** A scanning process holds the free list for reading and nothing else. */
  lemma ScanPlace(me: Proc, m: Entries)
    requires Scans(me.pc)
    ensures !HoldsChain(me.pc) && !HoldsFree(me.pc) && !AppendsDat(me.pc) && !AppendsIdx(me.pc)
    ensures Loose(me) == None && LooseData(me) == None && Pending(me, m) == m
  {
  }

  lemma ScanLocal(hash: Hasher, f: Files, g: Shape, m: Entries, me: Proc, p: nat)
    requires Scans(me.pc) && (me.pc == ScanData ==> ScanSees(f, g, me))
    ensures Local(hash, f, g, m, me, p)
  {
  }

  /** A process without a chain may go on as it likes, as long as it knows what its new place demands. */
  lemma ScanAmbles(hash: Hasher, f: Files, g: Shape, m: Entries, me: Proc, me': Proc, p: nat)
    requires Poise(hash, f, g, m, me, p) == Firm && Scans(me.pc) && Scans(me'.pc) && me'.op == me.op
    requires AtRecord(f, me'.cursor) && (me'.pc == ScanData ==> ScanSees(f, g, me'))
    ensures Ambling(hash, f, g, m, me, me', p) == Firm
  {
    hide Local, HoldsChain, HoldsFree, AppendsDat, AppendsIdx, Loose, LooseData, Pending;
    assert Opened(true);
    ScanLocal(hash, f, g, m, me', p);
    ScanPlace(me, m);
    ScanPlace(me', m);
  }

  lemma KeepsScanRead(hash: Hasher, s: Sys, p: nat)
    requires StandingOf(hash, s) == Firm && p < |s.procs| && s.procs[p].pc == ScanRead
    ensures StandingOf(hash, StepScanRead(s, p)) == Firm
  {
    hide StandingOf, Ambling, Poise;
    Poises(hash, s, p);
    ScanOn(hash, s, p);
    assert AtRecord(s.files, s.procs[p].cursor) by { Knows(hash, s, p); }
    ScanAmbles(hash, s.files, s.g, s.m, s.procs[p], AfterScan(s.procs[p], s.files), p);
    Stroll(hash, s, StepScanRead(s, p), p, AfterScan(s.procs[p], s.files));
  }

  lemma KeepsScanData(hash: Hasher, s: Sys, p: nat)
    requires StandingOf(hash, s) == Firm && p < |s.procs| && s.procs[p].pc == ScanData
    ensures s.procs[p].rec.datoff in s.files.dat
    ensures StandingOf(hash, StepScanData(s, p)) == Firm
  {
    hide StandingOf, Ambling, Poise;
    Poises(hash, s, p);
    ScanFinds(hash, s, p);
    assert AtRecord(s.files, s.procs[p].cursor) by { Knows(hash, s, p); }
    ScanAmbles(hash, s.files, s.g, s.m, s.procs[p], StepScanData(s, p).procs[p], p);
    Stroll(hash, s, StepScanData(s, p), p, StepScanData(s, p).procs[p]);
  }
}
