/**
 The database files as linked records: pointer slots and records by index-file offset, data by data-file
 offset. `Shape` is the bookkeeping that says how the records hang together. Every pointer slot is either
 the head of one of the NLIST lists (list 0 is the free list, list 1 + h the chain of hash value h)
 or the chain pointer of a record, at the record's own offset.
 */
module DbFiles {
  import opened CText
  import opened DbFormat

  datatype Files = Files(ptrs: map<nat, nat>, recs: map<nat, Rec>, idxEnd: nat, dat: map<nat, CString>, datEnd: nat)

  /** Whose a stretch of the data file is. */
  datatype Holder = InRecord(off: nat) | ByProcess(pid: nat)

  /** The lists in order; for each record the list it is on, or NLIST + p when process p holds it privately;
      for each data extent its holder. */
  datatype Shape = Shape(lists: seq<seq<nat>>, owner: map<nat, nat>, extents: map<nat, Holder>)

  const FREE: nat := 0

  function Slot(k: nat): nat { PTR_SZ * k }

  function Priv(pid: nat): nat { NLIST + pid }

  function PtrAt(f: Files, o: nat): nat {
    if o in f.recs then f.recs[o].ptr else if o in f.ptrs then f.ptrs[o] else 0
  }

  // ---- The effects of the write calls ----

  function SetPtr(f: Files, o: nat, v: nat): Files {
    if o in f.recs then f.(recs := f.recs[o := f.recs[o].(ptr := v)])
    else f.(ptrs := f.ptrs[o := v])
  }

  function PutRec(f: Files, o: nat, r: Rec): Files { f.(recs := f.recs[o := r]) }

  function AddRec(f: Files, r: Rec): Files {
    f.(recs := f.recs[f.idxEnd := r], idxEnd := f.idxEnd + RecSize(r))
  }

  function PutData(f: Files, a: nat, data: CString): Files { f.(dat := f.dat[a := data]) }

  function AddData(f: Files, data: CString): Files {
    f.(dat := f.dat[f.datEnd := data], datEnd := f.datEnd + |data| + 1)
  }

  // ---- Lists ----

  /** The slot that points to element j of list k. */
  function Node(k: nat, xs: seq<nat>, j: nat): nat
    requires j <= |xs|
  {
    if j == 0 then Slot(k) else xs[j - 1]
  }

  function Elem(xs: seq<nat>, j: nat): nat { if j < |xs| then xs[j] else 0 }

  /** Following the pointers from the head of list k visits exactly xs and then stops. */
  ghost predicate Linked(f: Files, k: nat, xs: seq<nat>) {
    forall j :: 0 <= j <= |xs| ==> PtrAt(f, Node(k, xs, j)) == Elem(xs, j)
  }

  ghost predicate Distinct(xs: seq<nat>) {
    forall i, j :: 0 <= i < j < |xs| ==> xs[i] != xs[j]
  }

  ghost predicate RecordsPlaced(f: Files, g: Shape) {
    && |g.lists| == NLIST
    && (forall k {:trigger Slot(k)} :: 0 <= k < NLIST ==> Slot(k) in f.ptrs)
    && f.idxEnd >= FIRST_REC
    && g.owner.Keys == f.recs.Keys
    && forall o :: o in f.recs ==> FIRST_REC <= o < f.idxEnd
  }

  ghost predicate ListsLinked(f: Files, g: Shape)
    requires |g.lists| == NLIST
  {
    forall k {:trigger Linked(f, k, g.lists[k])} :: 0 <= k < NLIST ==> Linked(f, k, g.lists[k])
  }

  /** Every record is on exactly one list, once, or is held by exactly one process. */
  ghost predicate Partition(g: Shape)
    requires |g.lists| == NLIST
  {
    && (forall k :: 0 <= k < NLIST ==> Distinct(g.lists[k]))
    && (forall k, j {:trigger g.lists[k][j]} :: 0 <= k < NLIST && 0 <= j < |g.lists[k]| ==>
          g.lists[k][j] in g.owner && g.owner[g.lists[k][j]] == k)
    && (forall o {:trigger g.lists[g.owner[o]]} :: o in g.owner && g.owner[o] < NLIST ==> o in g.lists[g.owner[o]])
  }

  /** Every data extent belongs to one record or one process, and a record's length field is its data's. */
  ghost predicate DataHeld(f: Files, g: Shape) {
    && g.extents.Keys == f.dat.Keys
    && (forall a :: a in f.dat ==> a + |f.dat[a]| + 1 <= f.datEnd)
    && (forall o :: o in f.recs ==>
          var r := f.recs[o];
          && r.datoff in f.dat && r.datlen == |f.dat[r.datoff]| + 1
          && g.extents[r.datoff] == InRecord(o))
  }

  ghost predicate Sound(f: Files, g: Shape) {
    && RecordsPlaced(f, g)
    && ListsLinked(f, g)
    && Partition(g)
    && DataHeld(f, g)
  }

  // ---- A new database ----

  function EmptyFiles(): Files {
    Files(map o | 0 <= o < TABLE_END && o % PTR_SZ == 0 :: 0, map[], FIRST_REC, map[], 0)
  }

  function EmptyShape(): Shape {
    Shape(seq(NLIST, i => []), map[], map[])
  }

  lemma EmptySound()
    ensures Sound(EmptyFiles(), EmptyShape())
  {
  }

  // ---- Each effect keeps the files sound ----

  lemma NodePlaced(f: Files, g: Shape, k: nat, j: nat)
    requires RecordsPlaced(f, g) && Partition(g) && k < NLIST && j <= |g.lists[k]|
    ensures var o := Node(k, g.lists[k], j);
            && (j == 0 ==> o == Slot(k) && o in f.ptrs && o !in f.recs)
            && (j > 0 ==> o in f.recs && g.owner[o] == k)
  {
  }

  /** Distinct lists and distinct positions have distinct slots. */
  lemma NodesDiffer(f: Files, g: Shape, k: nat, i: nat, l: nat, j: nat)
    requires RecordsPlaced(f, g) && Partition(g)
    requires k < NLIST && l < NLIST && i <= |g.lists[k]| && j <= |g.lists[l]|
    requires k != l || i != j
    ensures Node(k, g.lists[k], i) != Node(l, g.lists[l], j)
  {
    NodePlaced(f, g, k, i);
    NodePlaced(f, g, l, j);
  }

  function Without(xs: seq<nat>, j: nat): (r: seq<nat>)
    requires j < |xs|
  {
    xs[..j] + xs[j + 1..]
  }

  function Unlinked(g: Shape, k: nat, j: nat, pid: nat): Shape
    requires k < |g.lists| && j < |g.lists[k]|
  {
    g.(lists := g.lists[k := Without(g.lists[k], j)], owner := g.owner[g.lists[k][j] := Priv(pid)])
  }

  lemma WithoutElems(xs: seq<nat>, j: nat)
    requires j < |xs| && Distinct(xs)
    ensures Distinct(Without(xs, j))
    ensures forall o :: o in Without(xs, j) <==> o in xs && o != xs[j]
  {
    var ys := Without(xs, j);
    forall o | o in xs && o != xs[j] ensures o in ys {
      var i :| 0 <= i < |xs| && xs[i] == o;
      if i < j { assert ys[i] == o; } else { assert ys[i - 1] == o; }
    }
  }

  /** Writing the slot in front of element j of list k leaves every other list linked as it was. */
  lemma OthersLinked(f: Files, g: Shape, k: nat, j: nat, v: nat)
    requires RecordsPlaced(f, g) && ListsLinked(f, g) && Partition(g) && k < NLIST && j <= |g.lists[k]|
    ensures var f' := SetPtr(f, Node(k, g.lists[k], j), v);
            && RecordsPlaced(f', g)
            && (forall l :: 0 <= l < NLIST && l != k ==> Linked(f', l, g.lists[l]))
  {
    var slot := Node(k, g.lists[k], j);
    var f' := SetPtr(f, slot, v);
    NodePlaced(f, g, k, j);
    forall l | 0 <= l < NLIST && l != k ensures Linked(f', l, g.lists[l]) {
      forall i | 0 <= i <= |g.lists[l]| ensures PtrAt(f', Node(l, g.lists[l], i)) == Elem(g.lists[l], i) {
        NodePlaced(f, g, l, i);
        NodesDiffer(f, g, l, i, k, j);
        assert Linked(f, l, g.lists[l]);
      }
    }
  }

  lemma SetPtrData(f: Files, g: Shape, o: nat, v: nat)
    requires DataHeld(f, g)
    ensures DataHeld(SetPtr(f, o, v), g)
  {
    var f' := SetPtr(f, o, v);
    assert f'.dat == f.dat && f'.datEnd == f.datEnd && f'.recs.Keys == f.recs.Keys;
    forall p | p in f.recs ensures f'.recs[p].datoff == f.recs[p].datoff && f'.recs[p].datlen == f.recs[p].datlen {}
    hide SetPtr;
  }

  lemma UnlinkLinked(f: Files, g: Shape, k: nat, j: nat)
    requires RecordsPlaced(f, g) && ListsLinked(f, g) && Partition(g) && k < NLIST && j < |g.lists[k]|
    ensures var xs := g.lists[k];
            Linked(SetPtr(f, Node(k, xs, j), f.recs[xs[j]].ptr), k, Without(xs, j))
  {
    var xs := g.lists[k];
    var ys := Without(xs, j);
    var f' := SetPtr(f, Node(k, xs, j), f.recs[xs[j]].ptr);
    assert Linked(f, k, xs);
    NodePlaced(f, g, k, j);
    assert PtrAt(f, Node(k, xs, j + 1)) == Elem(xs, j + 1);
    forall i | 0 <= i <= |ys| ensures PtrAt(f', Node(k, ys, i)) == Elem(ys, i) {
      var i' := if i <= j then i else i + 1;
      assert Node(k, ys, i) == Node(k, xs, i');
      NodePlaced(f, g, k, i');
      if i != j { NodesDiffer(f, g, k, i', k, j); }
    }
  }

  lemma UnlinkPartition(g: Shape, k: nat, j: nat, pid: nat)
    requires |g.lists| == NLIST && Partition(g) && k < NLIST && j < |g.lists[k]|
    ensures Partition(Unlinked(g, k, j, pid))
  {
    WithoutElems(g.lists[k], j);
  }

  /** Writing the successor of element j into the slot that points to it takes it off its list. */
  lemma UnlinkSound(f: Files, g: Shape, k: nat, j: nat, pid: nat)
    requires Sound(f, g) && k < NLIST && j < |g.lists[k]|
    ensures Sound(SetPtr(f, Node(k, g.lists[k], j), f.recs[g.lists[k][j]].ptr), Unlinked(g, k, j, pid))
  {
    var g' := Unlinked(g, k, j, pid);
    NodePlaced(f, g, k, j + 1);
    var v := f.recs[g.lists[k][j]].ptr;
    var f' := SetPtr(f, Node(k, g.lists[k], j), v);
    OthersLinked(f, g, k, j, v);
    UnlinkLinked(f, g, k, j);
    UnlinkPartition(g, k, j, pid);
    SetPtrData(f, g, Node(k, g.lists[k], j), v);
    assert ListsLinked(f', g') by {
      forall l | 0 <= l < NLIST ensures Linked(f', l, g'.lists[l]) {
        assert l != k ==> g'.lists[l] == g.lists[l];
      }
    }
    assert RecordsPlaced(f', g');
    assert DataHeld(f', g');
  }

  function Pushed(g: Shape, k: nat, o: nat): Shape
    requires k < |g.lists|
  {
    g.(lists := g.lists[k := [o] + g.lists[k]], owner := g.owner[o := k])
  }

  lemma PushLinked(f: Files, g: Shape, k: nat, o: nat)
    requires RecordsPlaced(f, g) && ListsLinked(f, g) && Partition(g) && k < NLIST
    requires o in f.recs && f.recs[o].ptr == Elem(g.lists[k], 0)
    ensures Linked(SetPtr(f, Slot(k), o), k, [o] + g.lists[k])
  {
    var xs := g.lists[k];
    var ys := [o] + xs;
    var f' := SetPtr(f, Slot(k), o);
    NodePlaced(f, g, k, 0);
    assert Linked(f, k, xs);
    forall i | 0 <= i <= |ys| ensures PtrAt(f', Node(k, ys, i)) == Elem(ys, i) {
      if i > 1 {
        NodePlaced(f, g, k, i - 1);
        assert Node(k, ys, i) == Node(k, xs, i - 1);
      }
    }
  }

  lemma PushPartition(g: Shape, k: nat, o: nat)
    requires |g.lists| == NLIST && Partition(g) && k < NLIST && o in g.owner && g.owner[o] >= NLIST
    ensures Partition(Pushed(g, k, o))
  {
    assert forall p :: p in [o] + g.lists[k] <==> p == o || p in g.lists[k];
  }

  /** A privately held record whose chain pointer is the head of list k joins that list at the front. */
  lemma PushSound(f: Files, g: Shape, k: nat, o: nat)
    requires Sound(f, g) && k < NLIST
    requires o in f.recs && g.owner[o] >= NLIST && f.recs[o].ptr == Elem(g.lists[k], 0)
    ensures Sound(SetPtr(f, Slot(k), o), Pushed(g, k, o))
  {
    NodePlaced(f, g, k, 0);
    OthersLinked(f, g, k, 0, o);
    PushLinked(f, g, k, o);
    PushPartition(g, k, o);
  }

  /** Lists do not notice a privately held record being rewritten. */
  lemma PutRecSound(f: Files, g: Shape, o: nat, r: Rec)
    requires Sound(f, g) && o in f.recs && g.owner[o] >= NLIST
    requires r.datoff == f.recs[o].datoff && r.datlen == f.recs[o].datlen
    ensures Sound(PutRec(f, o, r), g)
  {
    var f' := PutRec(f, o, r);
    forall l | 0 <= l < NLIST ensures Linked(f', l, g.lists[l]) {
      forall i | 0 <= i <= |g.lists[l]| ensures PtrAt(f', Node(l, g.lists[l], i)) == Elem(g.lists[l], i) {
        NodePlaced(f, g, l, i);
        assert Linked(f, l, g.lists[l]);
      }
    }
  }

  lemma PutDataSound(f: Files, g: Shape, a: nat, data: CString)
    requires Sound(f, g) && a in f.dat && |data| == |f.dat[a]|
    ensures Sound(PutData(f, a, data), g)
  {
    forall l | 0 <= l < NLIST ensures Linked(PutData(f, a, data), l, g.lists[l]) {
      assert Linked(f, l, g.lists[l]);
    }
  }

  function DataAdded(f: Files, g: Shape, pid: nat): Shape { g.(extents := g.extents[f.datEnd := ByProcess(pid)]) }

  lemma AddDataSound(f: Files, g: Shape, data: CString, pid: nat)
    requires Sound(f, g)
    ensures Sound(AddData(f, data), DataAdded(f, g, pid))
  {
    forall l | 0 <= l < NLIST ensures Linked(AddData(f, data), l, g.lists[l]) {
      assert Linked(f, l, g.lists[l]);
    }
  }

  function RecAdded(f: Files, g: Shape, datoff: nat, pid: nat): Shape {
    g.(owner := g.owner[f.idxEnd := Priv(pid)], extents := g.extents[datoff := InRecord(f.idxEnd)])
  }

  lemma AddRecSound(f: Files, g: Shape, r: Rec, pid: nat)
    requires Sound(f, g)
    requires r.datoff in f.dat && r.datlen == |f.dat[r.datoff]| + 1 && g.extents[r.datoff] == ByProcess(pid)
    ensures Sound(AddRec(f, r), RecAdded(f, g, r.datoff, pid))
  {
    AddRecLinked(f, g, r, RecAdded(f, g, r.datoff, pid));
    AddRecHeld(f, g, r, pid);
    hide ListsLinked, DataHeld;
  }

  lemma AddRecHeld(f: Files, g: Shape, r: Rec, pid: nat)
    requires RecordsPlaced(f, g) && DataHeld(f, g)
    requires r.datoff in f.dat && r.datlen == |f.dat[r.datoff]| + 1 && g.extents[r.datoff] == ByProcess(pid)
    ensures DataHeld(AddRec(f, r), RecAdded(f, g, r.datoff, pid))
  {
  }

  lemma AddRecLinked(f: Files, g: Shape, r: Rec, g': Shape)
    requires RecordsPlaced(f, g) && ListsLinked(f, g) && Partition(g) && g'.lists == g.lists
    ensures ListsLinked(AddRec(f, r), g')
  {
    forall l | 0 <= l < NLIST ensures Linked(AddRec(f, r), l, g'.lists[l]) {
      forall i | 0 <= i <= |g.lists[l]| ensures PtrAt(AddRec(f, r), Node(l, g.lists[l], i)) == Elem(g.lists[l], i) {
        NodePlaced(f, g, l, i);
        assert Linked(f, l, g.lists[l]);
      }
    }
  }

  /** All a search needs to know about list k: following it visits the records xs and ends. */
  ghost predicate Walkable(f: Files, k: nat, xs: seq<nat>) {
    Linked(f, k, xs) && forall j :: 0 <= j < |xs| ==> xs[j] in f.recs && xs[j] != 0
  }

  lemma ListWalkable(f: Files, g: Shape, k: nat)
    requires Sound(f, g) && k < NLIST
    ensures Walkable(f, k, g.lists[k])
  {
    forall j | 0 <= j < |g.lists[k]| ensures g.lists[k][j] in f.recs && g.lists[k][j] != 0 {
      NodePlaced(f, g, k, j + 1);
    }
  }

  // ---- What the chains say about a key-to-data map ----

  ghost predicate HasKey(f: Files, xs: seq<nat>, key: CString) {
    exists o :: o in xs && o in f.recs && f.recs[o].key == key
  }

  ghost predicate SameKey(f: Files, o: nat, p: nat) {
    o in f.recs && p in f.recs && f.recs[o].key == f.recs[p].key
  }

  /** Chain h holds exactly the entries of m whose key hashes to h, each once. */
  ghost predicate Agrees(hash: Hasher, f: Files, xs: seq<nat>, h: nat, m: map<CString, CString>) {
    && (forall o :: o in xs ==> o in f.recs && f.recs[o].datoff in f.dat)
    && (forall o :: o in xs ==>
          var r := f.recs[o];
          hash(r.key) == h && r.key in m && m[r.key] == f.dat[r.datoff])
    && (forall o, p {:trigger SameKey(f, o, p)} :: o in xs && p in xs && SameKey(f, o, p) ==> o == p)
    && (forall key {:trigger HasKey(f, xs, key)} :: key in m && hash(key) == h ==> HasKey(f, xs, key))
  }

  ghost predicate ChainAgrees(hash: Hasher, f: Files, g: Shape, k: nat, m: map<CString, CString>)
    requires 1 <= k < |g.lists|
  {
    Agrees(hash, f, g.lists[k], k - 1, m)
  }

  /** The hash chains together hold exactly the entries of m. */
  ghost predicate ChainsAgree(hash: Hasher, f: Files, g: Shape, m: map<CString, CString>)
    requires |g.lists| == NLIST
  {
    forall k {:trigger ChainAgrees(hash, f, g, k, m)} :: 1 <= k < NLIST ==> ChainAgrees(hash, f, g, k, m)
  }

  /** A search that went past every element of the chain proves the key absent. */
  lemma SearchMissed(hash: Hasher, f: Files, xs: seq<nat>, h: nat, m: map<CString, CString>, key: CString)
    requires Agrees(hash, f, xs, h, m) && hash(key) == h
    requires forall j :: 0 <= j < |xs| ==> f.recs[xs[j]].key != key
    ensures key !in m
  {
    forall o | o in xs ensures f.recs[o].key != key {
      var j :| 0 <= j < |xs| && xs[j] == o;
    }
    assert key in m ==> HasKey(f, xs, key);
  }

  lemma AgreesAfterUnlink(hash: Hasher, f: Files, g: Shape, h: nat, j: nat, m: map<CString, CString>)
    requires Sound(f, g) && h < NHASH && j < |g.lists[1 + h]|
    requires Agrees(hash, f, g.lists[1 + h], h, m)
    ensures Agrees(hash, f, Without(g.lists[1 + h], j), h, m - {f.recs[g.lists[1 + h][j]].key})
  {
    var xs := g.lists[1 + h];
    var ys := Without(xs, j);
    var m' := m - {f.recs[xs[j]].key};
    WithoutElems(xs, j);
    forall key | key in m' && hash(key) == h ensures HasKey(f, ys, key) {
      assert HasKey(f, xs, key);
      var o :| o in xs && o in f.recs && f.recs[o].key == key;
      assert o in ys;
    }
    var gone := xs[j];
    forall o | o in ys ensures f.recs[o].key != f.recs[gone].key {
      assert SameKey(f, o, gone) ==> o == gone;
    }
    forall o, p | o in ys && p in ys && SameKey(f, o, p) ensures o == p {
    }
  }

  lemma AgreesAfterPush(hash: Hasher, f: Files, xs: seq<nat>, h: nat, o: nat, m: map<CString, CString>)
    requires o in f.recs && f.recs[o].datoff in f.dat
    requires Agrees(hash, f, xs, h, m) && hash(f.recs[o].key) == h && f.recs[o].key !in m
    ensures Agrees(hash, f, [o] + xs, h, m[f.recs[o].key := f.dat[f.recs[o].datoff]])
  {
    var ys := [o] + xs;
    assert forall p :: p in ys <==> p == o || p in xs;
    forall key | key in m[f.recs[o].key := f.dat[f.recs[o].datoff]] && hash(key) == h ensures HasKey(f, ys, key) {
      if key != f.recs[o].key {
        assert HasKey(f, xs, key);
        var p :| p in xs && p in f.recs && f.recs[p].key == key;
        assert p in ys;
      } else {
        assert o in ys;
      }
    }
    forall p, q | p in ys && q in ys && SameKey(f, p, q) ensures p == q {
      if p in xs && q in xs { assert SameKey(f, p, q); }
    }
  }

  /** Record `o` keeps its key, its extent and its data; its chain pointer may change. */
  ghost predicate SameEntry(f: Files, f': Files, o: nat) {
    && o in f.recs && o in f'.recs
    && f'.recs[o].key == f.recs[o].key && f'.recs[o].datoff == f.recs[o].datoff
    && f.recs[o].datoff in f.dat && f.recs[o].datoff in f'.dat
    && f'.dat[f.recs[o].datoff] == f.dat[f.recs[o].datoff]
  }

  /** The two maps have the same entries on chain h. */
  ghost predicate SameOnChain(hash: Hasher, h: nat, m: map<CString, CString>, m': map<CString, CString>) {
    forall key :: hash(key) == h ==> (key in m <==> key in m') && (key in m ==> m[key] == m'[key])
  }

  /** A chain keeps agreeing while its own records keep their entries. */
  lemma AgreesFrame(hash: Hasher, f: Files, f': Files, xs: seq<nat>, h: nat, m: map<CString, CString>,
                    m': map<CString, CString>)
    requires Agrees(hash, f, xs, h, m) && SameOnChain(hash, h, m, m')
    requires forall o :: o in xs ==> SameEntry(f, f', o)
    ensures Agrees(hash, f', xs, h, m')
  {
    forall key | key in m' && hash(key) == h ensures HasKey(f', xs, key) {
      assert HasKey(f, xs, key);
      var o :| o in xs && o in f.recs && f.recs[o].key == key;
      assert SameEntry(f, f', o);
    }
    forall o | o in xs
      ensures o in f'.recs && f'.recs[o].datoff in f'.dat
      ensures var r := f'.recs[o]; hash(r.key) == h && r.key in m' && m'[r.key] == f'.dat[r.datoff]
    {
      assert SameEntry(f, f', o);
    }
    forall o, p | o in xs && p in xs && SameKey(f', o, p) ensures o == p {
      assert SameEntry(f, f', o) && SameEntry(f, f', p);
      assert SameKey(f, o, p);
    }
  }

  // ---- Deleting a record ----

  /** The four writes of a deletion, in the order in which they are made: blank the data, blank the record and
      aim it at the head of the free list, put it at that head, and bridge the gap in the chain. */
  function Deleted(f: Files, k: nat, xs: seq<nat>, j: nat): Files
    requires j < |xs| && xs[j] in f.recs
  {
    var o := xs[j];
    var r := f.recs[o];
    var f1 := PutData(f, r.datoff, Blanks(if r.datlen == 0 then 0 else r.datlen - 1));
    var f2 := PutRec(f1, o, BlankRec(f, o));
    SetPtr(SetPtr(f2, Slot(FREE), o), Node(k, xs, j), r.ptr)
  }

  lemma PutRecCommutes(f: Files, o: nat, r: Rec, slot: nat, v: nat)
    requires slot != o
    ensures PutRec(SetPtr(f, slot, v), o, r) == SetPtr(PutRec(f, o, r), slot, v)
  {
    if slot in f.recs {
      assert f.recs[slot := f.recs[slot].(ptr := v)][o := r] == f.recs[o := r][slot := f.recs[slot].(ptr := v)];
    }
  }

  lemma SetPtrCommutes(f: Files, a: nat, v: nat, b: nat, w: nat)
    requires a != b
    ensures SetPtr(SetPtr(f, a, v), b, w) == SetPtr(SetPtr(f, b, w), a, v)
  {
    if a in f.recs && b in f.recs {
      var r, t := f.recs[a].(ptr := v), f.recs[b].(ptr := w);
      assert f.recs[a := r][b := t] == f.recs[b := t][a := r];
    } else if a !in f.recs && b !in f.recs {
      assert f.ptrs[a := v][b := w] == f.ptrs[b := w][a := v];
    }
  }

  /** What the deletion makes of the record itself. */
  function BlankRec(f: Files, o: nat): Rec
    requires o in f.recs
  {
    var r := f.recs[o];
    Rec(PtrAt(f, Slot(FREE)), Blanks(|r.key|), r.datoff, r.datlen)
  }

  /** Writing a chain pointer changes nothing else of any record. */
  lemma SetPtrKeeps(f: Files, slot: nat, v: nat, o: nat)
    requires o in f.recs
    ensures var f' := SetPtr(f, slot, v);
            o in f'.recs && f'.recs[o] == f.recs[o].(ptr := f'.recs[o].ptr)
  {
  }

  /** A privately held record, rewritten to point at the head of the free list, can be put at that head. */
  lemma RetireSound(f: Files, g: Shape, o: nat, r: Rec)
    requires Sound(f, g) && o in f.recs && g.owner[o] >= NLIST
    requires r.datoff == f.recs[o].datoff && r.datlen == f.recs[o].datlen && r.ptr == Elem(g.lists[FREE], 0)
    ensures Sound(SetPtr(PutRec(f, o, r), Slot(FREE), o), Pushed(g, FREE, o))
  {
    PutRecSound(f, g, o, r);
    PushSound(PutRec(f, o, r), g, FREE, o);
  }

  lemma HeadIs(f: Files, g: Shape, k: nat)
    requires Sound(f, g) && k < NLIST
    ensures PtrAt(f, Slot(k)) == Elem(g.lists[k], 0)
  {
    assert Linked(f, k, g.lists[k]);
    assert Node(k, g.lists[k], 0) == Slot(k);
  }

  /** The same four writes with the bridging write moved to the front: every step keeps the files sound. */
  lemma UnlinkFirst(f: Files, g: Shape, k: nat, j: nat, pid: nat, data: CString)
    requires Sound(f, g) && 1 <= k < NLIST && j < |g.lists[k]|
    requires var o := g.lists[k][j]; o in f.recs && |data| == f.recs[o].datlen - 1
    ensures var o := g.lists[k][j]; var r := f.recs[o];
            var fa := SetPtr(PutData(f, r.datoff, data), Node(k, g.lists[k], j), r.ptr);
            Sound(SetPtr(PutRec(fa, o, BlankRec(f, o)), Slot(FREE), o), Pushed(Unlinked(g, k, j, pid), FREE, o))
  {
    var o := g.lists[k][j];
    hide Partition, ListsLinked;
    var r := f.recs[o];
    PutDataSound(f, g, r.datoff, data);
    var f1 := PutData(f, r.datoff, data);
    assert Sound(f1, g) && f1.recs == f.recs;
    var fa, ga := SetPtr(f1, Node(k, g.lists[k], j), r.ptr), Unlinked(g, k, j, pid);
    assert Sound(fa, ga) by { UnlinkSound(f1, g, k, j, pid); }
    assert BlankRec(f, o).ptr == Elem(ga.lists[FREE], 0) by { HeadIs(f, g, FREE); }
    SetPtrKeeps(f1, Node(k, g.lists[k], j), r.ptr, o);
    assert ga.owner[o] == Priv(pid);
    RetireSound(fa, ga, o, BlankRec(f, o));
  }

  /** The bridging write commutes with the two before it. */
  lemma BridgeCommutes(f: Files, g: Shape, k: nat, j: nat)
    requires RecordsPlaced(f, g) && Partition(g) && 1 <= k < NLIST && j < |g.lists[k]| && g.lists[k][j] in f.recs
    requires f.recs[g.lists[k][j]].datlen > 0
    ensures var o := g.lists[k][j]; var r := f.recs[o]; var slot := Node(k, g.lists[k], j);
            var f1 := PutData(f, r.datoff, Blanks(r.datlen - 1));
            Deleted(f, k, g.lists[k], j) == SetPtr(PutRec(SetPtr(f1, slot, r.ptr), o, BlankRec(f, o)), Slot(FREE), o)
  {
    var o, slot := g.lists[k][j], Node(k, g.lists[k], j);
    var r := f.recs[o];
    var f1 := PutData(f, r.datoff, Blanks(r.datlen - 1));
    NodePlaced(f, g, k, j);
    NodesDiffer(f, g, k, j, k, j + 1);
    PutRecCommutes(f1, o, BlankRec(f, o), slot, r.ptr);
    SetPtrCommutes(PutRec(f1, o, BlankRec(f, o)), slot, r.ptr, Slot(FREE), o);
  }

  /** After the four writes the record is off its chain and at the front of the free list. Between them the
      files are not sound, so the proof makes the bridging write first: it commutes with the others. */
  lemma DeleteSound(f: Files, g: Shape, k: nat, j: nat, pid: nat)
    requires Sound(f, g) && 1 <= k < NLIST && j < |g.lists[k]|
    ensures g.lists[k][j] in f.recs
    ensures Sound(Deleted(f, k, g.lists[k], j), Pushed(Unlinked(g, k, j, pid), FREE, g.lists[k][j]))
  {
    var xs := g.lists[k];
    NodePlaced(f, g, k, j + 1);
    UnlinkFirst(f, g, k, j, pid, Blanks(f.recs[xs[j]].datlen - 1));
    BridgeCommutes(f, g, k, j);
  }

  /** A deletion touches the entry of the deleted record only. */
  lemma DeleteKeepsOthers(f: Files, g: Shape, k: nat, j: nat, p: nat)
    requires Sound(f, g) && 1 <= k < NLIST && j < |g.lists[k]| && g.lists[k][j] in f.recs
    requires p in f.recs && p != g.lists[k][j]
    ensures SameEntry(f, Deleted(f, k, g.lists[k], j), p)
  {
    var o := g.lists[k][j];
    assert g.extents[f.recs[o].datoff] == InRecord(o) && g.extents[f.recs[p].datoff] == InRecord(p);
  }
}
