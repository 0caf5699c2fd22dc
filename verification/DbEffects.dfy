/** What each update of the library does to the linked records and to the map they stand for. */
module DbEffects {
  import opened Options
  import opened CText
  import opened DbFormat
  import opened DbFiles

  /** The extent holds blanks only. */
  ghost predicate Wiped(f: Files, a: nat) { a in f.dat && AllBlank(f.dat[a]) }

  /** Nothing of a deleted entry is left: key and data of every free record are blanks. */
  ghost predicate FreeBlank(f: Files, g: Shape) {
    forall o :: o in f.recs && o in g.owner && g.owner[o] == FREE ==>
      AllBlank(f.recs[o].key) && Wiped(f, f.recs[o].datoff)
  }

  /** Every record is on a list. */
  ghost predicate NoneLoose(g: Shape) {
    forall o :: o in g.owner ==> g.owner[o] < NLIST
  }

  /** Every record except `x` is on a list, and `x` is not. */
  ghost predicate OneLoose(g: Shape, x: nat) {
    && x in g.owner && g.owner[x] == Priv(0)
    && forall o :: o in g.owner && o != x ==> g.owner[o] < NLIST
  }

  /** What the structure promises besides its bytes. */
  ghost predicate Kept(hash: Hasher, f: Files, g: Shape, m: map<CString, CString>) {
    Sound(f, g) && FreeBlank(f, g) && ChainsAgree(hash, f, g, m) && InTable(hash)
  }

  lemma EmptyKept(hash: Hasher)
    requires InTable(hash)
    ensures Kept(hash, EmptyFiles(), EmptyShape(), map[]) && NoneLoose(EmptyShape())
  {
    EmptySound();
    forall k | 1 <= k < NLIST ensures ChainAgrees(hash, EmptyFiles(), EmptyShape(), k, map[]) {}
  }

  /** The slots an update writes are list heads or chain pointers. */
  ghost predicate IsSlot(f: Files, o: nat) {
    o in f.recs || exists k :: 0 <= k < NLIST && o == Slot(k)
  }

  lemma SlotIsSlot(f: Files, k: nat)
    requires k < NLIST
    ensures IsSlot(f, Slot(k))
  {
  }

  /** The slots and the extent a deletion writes are where it expects them. */
  ghost predicate Deletable(f: Files, k: nat, xs: seq<nat>, j: nat) {
    && 1 <= k < NLIST && j < |xs| && xs[j] in f.recs
    && var o := xs[j]; var slot := Node(k, xs, j);
    && o != slot && IsSlot(f, slot) && slot != Slot(FREE)
    && f.recs[o].datoff in f.dat && f.recs[o].datlen == |f.dat[f.recs[o].datoff]| + 1
  }

  lemma ElemNonZero(f: Files, g: Shape, k: nat, pos: nat)
    requires Sound(f, g) && k < NLIST && pos <= |g.lists[k]|
    ensures Elem(g.lists[k], pos) == 0 <==> pos == |g.lists[k]|
  {
    if pos < |g.lists[k]| { NodePlaced(f, g, k, pos + 1); }
  }

  /** How a search for a key in list xs ended: at position `found`, or past the end. */
  ghost predicate Outcome(f: Files, xs: seq<nat>, key: CString, found: Option<nat>) {
    match found
    case Some(pos) => pos < |xs| && xs[pos] in f.recs && f.recs[xs[pos]].key == key
    case None => forall j :: 0 <= j < |xs| ==> xs[j] in f.recs && f.recs[xs[j]].key != key
  }

  lemma SearchEnds(hash: Hasher, f: Files, g: Shape, m: map<CString, CString>, key: CString, found: Option<nat>)
    requires Sound(f, g) && ChainsAgree(hash, f, g, m) && InTable(hash)
    requires Outcome(f, g.lists[1 + hash(key)], key, found)
    ensures found.Some? <==> key in m
  {
    var k := 1 + hash(key);
    assert ChainAgrees(hash, f, g, k, m);
    if found.None? { SearchMissed(hash, f, g.lists[k], k - 1, m, key); }
  }

  lemma FreePlaces(f: Files, g: Shape, pos: nat)
    requires Sound(f, g) && pos < |g.lists[FREE]|
    ensures var o := g.lists[FREE][pos]; var slot := Node(FREE, g.lists[FREE], pos);
            IsSlot(f, slot) && slot != o && o in f.recs && SetPtr(f, slot, f.recs[o].ptr).recs[o] == f.recs[o]
  {
    NodePlaced(f, g, FREE, pos);
    NodePlaced(f, g, FREE, pos + 1);
    NodesDiffer(f, g, FREE, pos, FREE, pos + 1);
    SlotIsSlot(f, FREE);
  }

  /** Unlinking from the free list: chains and blankness stay, one record becomes loose. */
  lemma TakeFree(hash: Hasher, f: Files, g: Shape, pos: nat, m: map<CString, CString>)
    requires Sound(f, g) && pos < |g.lists[FREE]|
    requires ChainsAgree(hash, f, g, m) && FreeBlank(f, g)
    ensures g.lists[FREE][pos] in f.recs
    ensures var f' := SetPtr(f, Node(FREE, g.lists[FREE], pos), f.recs[g.lists[FREE][pos]].ptr);
            var g' := Unlinked(g, FREE, pos, 0);
            && Sound(f', g') && ChainsAgree(hash, f', g', m) && FreeBlank(f', g')
            && (NoneLoose(g) ==> OneLoose(g', g.lists[FREE][pos]))
  {
    UnlinkSound(f, g, FREE, pos, 0);
    NodePlaced(f, g, FREE, pos + 1);
    var slot, v := Node(FREE, g.lists[FREE], pos), f.recs[g.lists[FREE][pos]].ptr;
    var f', g' := SetPtr(f, slot, v), Unlinked(g, FREE, pos, 0);
    forall o | o in f.recs ensures SameEntry(f, f', o) { SetPtrKeeps(f, slot, v, o); }
    TakenAgrees(hash, f, g, f', m);
  }

  /** Pointer writes do not matter to the chains' entries. */
  lemma TakenAgrees(hash: Hasher, f: Files, g: Shape, f': Files, m: map<CString, CString>)
    requires RecordsPlaced(f, g) && Partition(g) && ChainsAgree(hash, f, g, m)
    requires forall o :: o in f.recs ==> SameEntry(f, f', o)
    ensures forall g': Shape {:trigger ChainsAgree(hash, f', g', m)} ::
              |g'.lists| == NLIST && g'.lists[1..] == g.lists[1..] ==> ChainsAgree(hash, f', g', m)
  {
    forall k | 1 <= k < NLIST ensures Agrees(hash, f', g.lists[k], k - 1, m) {
      assert ChainAgrees(hash, f, g, k, m);
      AgreesFrame(hash, f, f', g.lists[k], k - 1, m, m);
    }
  }

  lemma DeletePlaces(f: Files, g: Shape, k: nat, j: nat)
    requires Sound(f, g) && 1 <= k < NLIST && j < |g.lists[k]|
    ensures Deletable(f, k, g.lists[k], j)
  {
    NodePlaced(f, g, k, j);
    NodePlaced(f, g, k, j + 1);
    NodesDiffer(f, g, k, j, k, j + 1);
    NodesDiffer(f, g, k, j, FREE, 0);
    SlotIsSlot(f, k);
  }

  lemma DeleteAgrees(hash: Hasher, f: Files, g: Shape, k: nat, j: nat, m: map<CString, CString>)
    requires Sound(f, g) && 1 <= k < NLIST && j < |g.lists[k]| && g.lists[k][j] in f.recs
    requires ChainsAgree(hash, f, g, m)
    ensures var o := g.lists[k][j];
            ChainsAgree(hash, Deleted(f, k, g.lists[k], j), Pushed(Unlinked(g, k, j, 0), FREE, o), m - {f.recs[o].key})
  {
    var o := g.lists[k][j];
    var m' := m - {f.recs[o].key};
    var f', g' := Deleted(f, k, g.lists[k], j), Pushed(Unlinked(g, k, j, 0), FREE, o);
    assert ChainAgrees(hash, f, g, k, m);
    forall l | 1 <= l < NLIST ensures ChainAgrees(hash, f', g', l, m') {
      assert ChainAgrees(hash, f, g, l, m);
      if l == k {
        WithoutElems(g.lists[k], j);
        AgreesAfterUnlink(hash, f, g, k - 1, j, m);
      }
      var xs := if l == k then Without(g.lists[k], j) else g.lists[l];
      forall p | p in xs ensures SameEntry(f, f', p) { DeleteKeepsOthers(f, g, k, j, p); }
      AgreesFrame(hash, f, f', xs, l - 1, if l == k then m' else m, m');
    }
  }

  lemma DeleteBlank(f: Files, g: Shape, k: nat, j: nat)
    requires Sound(f, g) && 1 <= k < NLIST && j < |g.lists[k]| && g.lists[k][j] in f.recs && FreeBlank(f, g)
    ensures var g' := Pushed(Unlinked(g, k, j, 0), FREE, g.lists[k][j]);
            FreeBlank(Deleted(f, k, g.lists[k], j), g') && (NoneLoose(g) ==> NoneLoose(g'))
  {
    var o := g.lists[k][j];
    var f', g' := Deleted(f, k, g.lists[k], j), Pushed(Unlinked(g, k, j, 0), FREE, o);
    forall p | p in f'.recs && p in g'.owner && g'.owner[p] == FREE
      ensures AllBlank(f'.recs[p].key) && Wiped(f', f'.recs[p].datoff)
    {
      if p != o { DeleteKeepsOthers(f, g, k, j, p); }
    }
  }

  lemma DeleteKeeps(hash: Hasher, f: Files, g: Shape, k: nat, j: nat, m: map<CString, CString>)
    requires Kept(hash, f, g, m) && NoneLoose(g) && 1 <= k < NLIST && j < |g.lists[k]|
    ensures g.lists[k][j] in f.recs
    ensures var g' := Pushed(Unlinked(g, k, j, 0), FREE, g.lists[k][j]);
            Kept(hash, Deleted(f, k, g.lists[k], j), g', m - {f.recs[g.lists[k][j]].key}) && NoneLoose(g')
  {
    DeleteSound(f, g, k, j, 0);
    DeleteAgrees(hash, f, g, k, j, m);
    DeleteBlank(f, g, k, j);
  }

  /** A new record, written and linked at the front of its chain. */
  function Inserted(f: Files, k: nat, key: CString, data: CString): Files {
    var f1 := AddData(f, data);
    SetPtr(AddRec(f1, Rec(PtrAt(f, Slot(k)), key, f.datEnd, |data| + 1)), Slot(k), f.idxEnd)
  }

  function InsertedShape(f: Files, g: Shape, k: nat): Shape
    requires k < |g.lists|
  {
    Pushed(RecAdded(f, DataAdded(f, g, 0), f.datEnd, 0), k, f.idxEnd)
  }

  lemma InsertSound(f: Files, g: Shape, k: nat, key: CString, data: CString)
    requires Sound(f, g) && 1 <= k < NLIST
    ensures Sound(Inserted(f, k, key, data), InsertedShape(f, g, k))
  {
    var f1, g1 := AddData(f, data), DataAdded(f, g, 0);
    AddDataSound(f, g, data, 0);
    var r := Rec(PtrAt(f, Slot(k)), key, f.datEnd, |data| + 1);
    AddRecSound(f1, g1, r, 0);
    HeadIs(f, g, k);
    assert PtrAt(f1, Slot(k)) == PtrAt(f, Slot(k));
    PushSound(AddRec(f1, r), RecAdded(f1, g1, f.datEnd, 0), k, f.idxEnd);
  }

  /** Linking record o, which nothing linked so far, in front of chain k. */
  lemma LinkAgrees(hash: Hasher, f: Files, g: Shape, f': Files, g': Shape, k: nat, o: nat, m: map<CString, CString>)
    requires RecordsPlaced(f, g) && Partition(g) && ChainsAgree(hash, f, g, m) && 1 <= k < NLIST
    requires forall l, p {:trigger SameEntry(f, f', p), g.lists[l]} :: 1 <= l < NLIST && p in g.lists[l] ==>
             SameEntry(f, f', p)
    requires g'.lists == g.lists[k := [o] + g.lists[k]]
    requires o in f'.recs && f'.recs[o].datoff in f'.dat
    requires hash(f'.recs[o].key) == k - 1 && f'.recs[o].key !in m
    ensures ChainsAgree(hash, f', g', m[f'.recs[o].key := f'.dat[f'.recs[o].datoff]])
  {
    var m' := m[f'.recs[o].key := f'.dat[f'.recs[o].datoff]];
    forall l | 1 <= l < NLIST ensures ChainAgrees(hash, f', g', l, m') {
      assert ChainAgrees(hash, f, g, l, m);
      forall p | p in g.lists[l] ensures SameEntry(f, f', p) {}
      if l == k {
        AgreesFrame(hash, f, f', g.lists[l], l - 1, m, m);
        AgreesAfterPush(hash, f', g.lists[k], k - 1, o, m);
      } else {
        AgreesFrame(hash, f, f', g.lists[l], l - 1, m, m');
      }
    }
  }

  lemma FoundEntry(hash: Hasher, f: Files, g: Shape, m: map<CString, CString>, k: nat, pos: nat)
    requires Sound(f, g) && ChainsAgree(hash, f, g, m) && 1 <= k < NLIST && pos < |g.lists[k]|
    ensures var o := g.lists[k][pos];
            && o in f.recs && f.recs[o].datoff in f.dat && f.recs[o].datlen == |f.dat[f.recs[o].datoff]| + 1
            && f.recs[o].key in m && m[f.recs[o].key] == f.dat[f.recs[o].datoff]
  {
    assert ChainAgrees(hash, f, g, k, m);
  }

  lemma LooseExtent(f: Files, g: Shape, o: nat)
    requires Sound(f, g) && o in f.recs
    ensures f.recs[o].datoff in f.dat && f.recs[o].datlen == |f.dat[f.recs[o].datoff]| + 1
  {
  }

  lemma InsertKeeps(hash: Hasher, f: Files, g: Shape, k: nat, key: CString, data: CString, m: map<CString, CString>)
    requires Kept(hash, f, g, m) && NoneLoose(g) && 1 <= k < NLIST && hash(key) == k - 1 && key !in m
    ensures Kept(hash, Inserted(f, k, key, data), InsertedShape(f, g, k), m[key := data])
    ensures NoneLoose(InsertedShape(f, g, k))
  {
    hide ChainsAgree, ChainAgrees, Inserted, FreeBlank;
    InsertSound(f, g, k, key, data);
    InsertBlank(f, g, k, key, data);
    InsertAgrees(hash, f, g, k, key, data, m);
    hide Sound;
  }

  lemma InsertAgrees(hash: Hasher, f: Files, g: Shape, k: nat, key: CString, data: CString, m: map<CString, CString>)
    requires Sound(f, g) && ChainsAgree(hash, f, g, m) && 1 <= k < NLIST && hash(key) == k - 1 && key !in m
    ensures ChainsAgree(hash, Inserted(f, k, key, data), InsertedShape(f, g, k), m[key := data])
  {
    InsertKeepsOthers(f, g, k, key, data);
    InsertKeepsNew(f, g, k, key, data);
    hide ChainsAgree, DataHeld, Inserted;
    LinkAgrees(hash, f, g, Inserted(f, k, key, data), InsertedShape(f, g, k), k, f.idxEnd, m);
  }

  lemma InsertBlank(f: Files, g: Shape, k: nat, key: CString, data: CString)
    requires RecordsPlaced(f, g) && DataHeld(f, g) && FreeBlank(f, g) && 1 <= k < NLIST
    ensures FreeBlank(Inserted(f, k, key, data), InsertedShape(f, g, k))
  {
    InsertKeepsOthers(f, g, k, key, data);
    hide Inserted;
  }

  lemma InsertKeepsOthers(f: Files, g: Shape, k: nat, key: CString, data: CString)
    requires RecordsPlaced(f, g) && DataHeld(f, g)
    ensures forall p :: p in f.recs ==> SameEntry(f, Inserted(f, k, key, data), p)
  {
    var f2 := AddRec(AddData(f, data), Rec(PtrAt(f, Slot(k)), key, f.datEnd, |data| + 1));
    forall p | p in f.recs ensures SameEntry(f, Inserted(f, k, key, data), p) {
      SetPtrKeeps(f2, Slot(k), f.idxEnd, p);
    }
  }

  lemma InsertKeepsNew(f: Files, g: Shape, k: nat, key: CString, data: CString)
    requires RecordsPlaced(f, g) && DataHeld(f, g)
    ensures var f' := Inserted(f, k, key, data);
            && f.idxEnd in f'.recs && f'.recs[f.idxEnd].key == key
            && f'.recs[f.idxEnd].datoff == f.datEnd && f.datEnd in f'.dat && f'.dat[f.datEnd] == data
  {
    var f2 := AddRec(AddData(f, data), Rec(PtrAt(f, Slot(k)), key, f.datEnd, |data| + 1));
    SetPtrKeeps(f2, Slot(k), f.idxEnd, f.idxEnd);
  }

  /** A record taken from the free list, rewritten and linked at the front of chain k. */
  function Reused(f: Files, k: nat, o: nat, r: Rec, data: CString): Files {
    SetPtr(PutRec(PutData(f, r.datoff, data), o, r), Slot(k), o)
  }

  lemma ReuseSound(f: Files, g: Shape, k: nat, o: nat, r: Rec, data: CString)
    requires Sound(f, g) && 1 <= k < NLIST && o in f.recs && g.owner[o] >= NLIST
    requires r.datoff == f.recs[o].datoff && r.datlen == f.recs[o].datlen == |data| + 1 && r.ptr == PtrAt(f, Slot(k))
    ensures Sound(Reused(f, k, o, r, data), Pushed(g, k, o))
  {
    HeadIs(f, g, k);
    PutDataSound(f, g, r.datoff, data);
    PutRecSound(PutData(f, r.datoff, data), g, o, r);
    PushSound(PutRec(PutData(f, r.datoff, data), o, r), g, k, o);
  }

  lemma ReuseKeepsOthers(f: Files, g: Shape, k: nat, o: nat, r: Rec, data: CString, p: nat)
    requires Sound(f, g) && k < NLIST && o in f.recs && p in f.recs && p != o && r.datoff == f.recs[o].datoff
    ensures SameEntry(f, Reused(f, k, o, r, data), p)
  {
    assert g.extents[f.recs[o].datoff] == InRecord(o) && g.extents[f.recs[p].datoff] == InRecord(p);
  }

  lemma ReuseBlank(f: Files, g: Shape, k: nat, o: nat, r: Rec, data: CString)
    requires Sound(f, g) && FreeBlank(f, g) && 1 <= k < NLIST && o in f.recs && r.datoff == f.recs[o].datoff
    ensures FreeBlank(Reused(f, k, o, r, data), Pushed(g, k, o))
  {
    var f', g' := Reused(f, k, o, r, data), Pushed(g, k, o);
    forall p | p in f'.recs && p in g'.owner && g'.owner[p] == FREE
      ensures AllBlank(f'.recs[p].key) && Wiped(f', f'.recs[p].datoff)
    {
      ReuseKeepsOthers(f, g, k, o, r, data, p);
    }
  }

  lemma ReuseKeeps(hash: Hasher, f: Files, g: Shape, k: nat, o: nat, r: Rec, data: CString, m: map<CString, CString>)
    requires Kept(hash, f, g, m) && OneLoose(g, o) && o in f.recs && 1 <= k < NLIST
    requires r.datoff == f.recs[o].datoff && r.datlen == f.recs[o].datlen == |data| + 1 && r.ptr == PtrAt(f, Slot(k))
    requires hash(r.key) == k - 1 && r.key !in m
    ensures Kept(hash, Reused(f, k, o, r, data), Pushed(g, k, o), m[r.key := data]) && NoneLoose(Pushed(g, k, o))
  {
    ReuseSound(f, g, k, o, r, data);
    ReuseBlank(f, g, k, o, r, data);
    ReuseAgrees(hash, f, g, k, o, r, data, m);
    hide Sound, ChainsAgree, Reused;
  }

  lemma ReuseAgrees(hash: Hasher, f: Files, g: Shape, k: nat, o: nat, r: Rec, data: CString, m: map<CString, CString>)
    requires Sound(f, g) && ChainsAgree(hash, f, g, m) && o in f.recs && g.owner[o] >= NLIST && 1 <= k < NLIST
    requires r.datoff == f.recs[o].datoff && r.datlen == f.recs[o].datlen == |data| + 1
    requires hash(r.key) == k - 1 && r.key !in m
    ensures ChainsAgree(hash, Reused(f, k, o, r, data), Pushed(g, k, o), m[r.key := data])
  {
    hide ChainsAgree;
    forall p | p in f.recs && p != o ensures SameEntry(f, Reused(f, k, o, r, data), p) {
      ReuseKeepsOthers(f, g, k, o, r, data, p);
    }
    SetPtrKeeps(PutRec(PutData(f, r.datoff, data), o, r), Slot(k), o, o);
    LinkAgrees(hash, f, g, Reused(f, k, o, r, data), Pushed(g, k, o), k, o, m);
  }

  /** Overwriting the data of a live record by data of the same length. */
  lemma OverwriteKeeps(hash: Hasher, f: Files, g: Shape, k: nat, pos: nat, data: CString, m: map<CString, CString>)
    requires Kept(hash, f, g, m) && NoneLoose(g) && 1 <= k < NLIST && pos < |g.lists[k]|
    requires var o := g.lists[k][pos]; o in f.recs && |data| + 1 == f.recs[o].datlen
    ensures var r := f.recs[g.lists[k][pos]];
            Kept(hash, PutData(f, r.datoff, data), g, m[r.key := data])
  {
    var o := g.lists[k][pos];
    var r := f.recs[o];
    var f', m' := PutData(f, r.datoff, data), m[r.key := data];
    PutDataSound(f, g, r.datoff, data);
    forall p | p in f.recs && p != o ensures SameEntry(f, f', p) {
      assert g.extents[r.datoff] == InRecord(o) && g.extents[f.recs[p].datoff] == InRecord(p);
    }
    OverwriteChains(hash, f, g, k, o, f', m, m');
    hide Sound, ChainsAgree;
  }

  lemma OverwriteChains(hash: Hasher, f: Files, g: Shape, k: nat, o: nat, f': Files,
                        m: map<CString, CString>, m': map<CString, CString>)
    requires Sound(f, g) && ChainsAgree(hash, f, g, m) && 1 <= k < NLIST && o in g.lists[k] && o in f.recs
    requires f'.recs == f.recs && forall p {:trigger SameEntry(f, f', p)} :: p in f.recs && p != o ==>
             SameEntry(f, f', p)
    requires f.recs[o].datoff in f'.dat && m' == m[f.recs[o].key := f'.dat[f.recs[o].datoff]]
    ensures ChainsAgree(hash, f', g, m')
  {
    hide ListsLinked, DataHeld;
    assert ChainAgrees(hash, f, g, k, m);
    forall l | 1 <= l < NLIST ensures ChainAgrees(hash, f', g, l, m') {
      assert ChainAgrees(hash, f, g, l, m);
      if l == k {
        OverwriteAgrees(hash, f, f', g.lists[k], k - 1, o, m, m');
      } else {
        AgreesFrame(hash, f, f', g.lists[l], l - 1, m, m');
      }
    }
  }

  lemma OverwriteAgrees(hash: Hasher, f: Files, f': Files, xs: seq<nat>, h: nat, o: nat,
                        m: map<CString, CString>, m': map<CString, CString>)
    requires Agrees(hash, f, xs, h, m) && o in xs && f'.recs == f.recs
    requires forall p :: p in xs && p != o ==> SameEntry(f, f', p)
    requires f.recs[o].datoff in f'.dat && m' == m[f.recs[o].key := f'.dat[f.recs[o].datoff]]
    ensures Agrees(hash, f', xs, h, m')
  {
    forall key | key in m' && hash(key) == h ensures HasKey(f', xs, key) {
      if key in m { assert HasKey(f, xs, key); }
    }
    forall p, q | p in xs && q in xs && SameKey(f', p, q) ensures p == q { assert SameKey(f, p, q); }
    forall p | p in xs && p != o ensures f.recs[p].key != f.recs[o].key && SameEntry(f, f', p) {
      assert SameKey(f, p, o) ==> p == o;
    }
  }
}
