/**
 Reference-counted objects on hash chains: the memory the two programs share the layout of, and what one call does
 to the table when nothing comes in between. Addresses are positive numbers, 0 is the null pointer.
 */
module FooTable {

  const NHASH: nat := 29

  /** HASH(id): the id as an unsigned 64-bit number, modulo the table size. */
  function Bucket(id: int): (b: nat)
    ensures b < NHASH
  {
    (id % 0x1_0000_0000_0000_0000) % NHASH
  }

  /** For an identifier of an int: negative ones are sign-extended to 64 bits. */
  lemma BucketOfInt(id: int)
    ensures 0 <= id < 0x8000_0000 ==> Bucket(id) == id % 29
    ensures -0x8000_0000 <= id < 0 ==> Bucket(id) == (0x1_0000_0000_0000_0000 + id) % 29
  {
  }

  datatype Foo = Foo(count: int, id: int, next: nat)

  datatype Memory = Memory(fh: seq<nat>, foo: map<nat, Foo>)

  function Elem(xs: seq<nat>, j: nat): nat { if j < |xs| then xs[j] else 0 }

  function FooAt(m: Memory, o: nat): Foo { if o in m.foo then m.foo[o] else Foo(0, 0, 0) }

  /** The pointer that leads to element j of chain b. */
  function Link(m: Memory, b: nat, xs: seq<nat>, j: nat): nat
    requires b < |m.fh| && j <= |xs|
  {
    if j == 0 then m.fh[b] else FooAt(m, xs[j - 1]).next
  }

  ghost predicate Distinct(xs: seq<nat>) { forall i, j :: 0 <= i < j < |xs| ==> xs[i] != xs[j] }

  /** Chain b is the list xs of objects with that hash value. */
  ghost predicate Chain(m: Memory, b: nat, xs: seq<nat>)
    requires b < |m.fh|
  {
    && (forall j :: 0 <= j <= |xs| ==> Link(m, b, xs, j) == Elem(xs, j))
    && Distinct(xs)
    && (forall o :: o in xs ==> o != 0 && o in m.foo && Bucket(m.foo[o].id) == b)
  }

  ghost predicate Chained(m: Memory, chains: seq<seq<nat>>) {
    && |m.fh| == |chains| == NHASH
    && forall b {:trigger chains[b]} :: 0 <= b < NHASH ==> Chain(m, b, chains[b])
  }

  ghost predicate OnChain(m: Memory, chains: seq<seq<nat>>, o: nat) {
    o in m.foo && |chains| == NHASH && o in chains[Bucket(m.foo[o].id)]
  }

  // ---- The table as one call after the other sees it ----

  datatype Obj = Obj(id: int, count: int)

  /** Chains in order, and identifier and reference count of each object on them. */
  datatype Table = Table(chains: seq<seq<nat>>, objs: map<nat, Obj>)

  ghost function TableOf(m: Memory, chains: seq<seq<nat>>): Table {
    Table(chains, map o | o in m.foo && OnChain(m, chains, o) :: Obj(m.foo[o].id, m.foo[o].count))
  }

  predicate InTable(t: Table, o: nat) { o in t.objs && |t.chains| == NHASH }

  function Alloc(t: Table, o: nat, id: int): Table
    requires |t.chains| == NHASH
  {
    Table(t.chains[Bucket(id) := [o] + t.chains[Bucket(id)]], t.objs[o := Obj(id, 1)])
  }

  function Hold(t: Table, o: nat): Table {
    if o in t.objs then t.(objs := t.objs[o := t.objs[o].(count := t.objs[o].count + 1)]) else t
  }

  /** The first object with this identifier, or null. */
  function Lookup(objs: map<nat, Obj>, xs: seq<nat>, id: int): (o: nat)
    ensures o != 0 ==> o in xs && o in objs && objs[o].id == id
  {
    if xs == [] then 0
    else if xs[0] in objs && objs[xs[0]].id == id then xs[0]
    else Lookup(objs, xs[1..], id)
  }

  /** The table after a find, and what it returns: the object with one more reference, or null. */
  function Find(t: Table, id: int): (Table, nat)
    requires |t.chains| == NHASH
  {
    var o := Lookup(t.objs, t.chains[Bucket(id)], id);
    (if o == 0 then t else Hold(t, o), o)
  }

  function Position(xs: seq<nat>, o: nat): (i: nat)
    ensures i <= |xs| && (i < |xs| ==> xs[i] == o) && (o in xs ==> i < |xs|)
  {
    if xs == [] || xs[0] == o then 0 else 1 + Position(xs[1..], o)
  }

  function Without(xs: seq<nat>, o: nat): seq<nat> {
    var i := Position(xs, o);
    if i < |xs| then xs[..i] + xs[i + 1..] else xs
  }

  /** One reference fewer; with the last one the object is gone. */
  function Rele(t: Table, o: nat): Table {
    if o !in t.objs || |t.chains| != NHASH then t
    else if t.objs[o].count == 1 then
      var b := Bucket(t.objs[o].id);
      Table(t.chains[b := Without(t.chains[b], o)], t.objs - {o})
    else t.(objs := t.objs[o := t.objs[o].(count := t.objs[o].count - 1)])
  }

  // ---- The pointer writes ----

  function SetNext(m: Memory, o: nat, next: nat): Memory {
    if o in m.foo then m.(foo := m.foo[o := m.foo[o].(next := next)]) else m
  }

  function SetCount(m: Memory, o: nat, count: int): Memory {
    if o in m.foo then m.(foo := m.foo[o := m.foo[o].(count := count)]) else m
  }

  function SetHead(m: Memory, b: nat, o: nat): Memory {
    if b < |m.fh| then m.(fh := m.fh[b := o]) else m
  }

  function Pushed(chains: seq<seq<nat>>, b: nat, o: nat): seq<seq<nat>> {
    if b < |chains| then chains[b := [o] + chains[b]] else chains
  }

  function Removed(chains: seq<seq<nat>>, b: nat, o: nat): seq<seq<nat>> {
    if b < |chains| then chains[b := Without(chains[b], o)] else chains
  }

  lemma WithoutIs(xs: seq<nat>, i: nat)
    requires i < |xs| && Distinct(xs)
    ensures Position(xs, xs[i]) == i && Without(xs, xs[i]) == xs[..i] + xs[i + 1..]
    ensures Distinct(Without(xs, xs[i]))
    ensures forall p :: p in Without(xs, xs[i]) <==> p in xs && p != xs[i]
  {
    PositionIs(xs, i);
    CutIs(xs, i, xs[..i] + xs[i + 1..]);
  }

  lemma CutIs(xs: seq<nat>, i: nat, ys: seq<nat>)
    requires i < |xs| && Distinct(xs) && ys == xs[..i] + xs[i + 1..]
    ensures Distinct(ys) && forall p :: p in ys <==> p in xs && p != xs[i]
  {
    assert forall j :: 0 <= j < |ys| ==> ys[j] == if j < i then xs[j] else xs[j + 1];
    forall p | p in xs && p != xs[i] ensures p in ys {
      var j :| 0 <= j < |xs| && xs[j] == p;
      assert if j < i then ys[j] == p else ys[j - 1] == p;
    }
  }

  lemma {:induction false} PositionIs(xs: seq<nat>, i: nat)
    requires i < |xs| && Distinct(xs)
    ensures Position(xs, xs[i]) == i
  {
    if i > 0 {
      assert xs[0] != xs[i];
      assert Distinct(xs[1..]);
      PositionIs(xs[1..], i - 1);
    }
  }

  /** An object whose next pointer is the head of its chain, put at that head. */
  lemma PushChained(m: Memory, chains: seq<seq<nat>>, o: nat)
    requires Chained(m, chains) && o != 0 && o in m.foo && !OnChain(m, chains, o)
    requires m.foo[o].next == m.fh[Bucket(m.foo[o].id)]
    ensures var b := Bucket(m.foo[o].id);
            Chained(SetHead(m, b, o), Pushed(chains, b, o)) && m.fh[b] == Elem(chains[b], 0)
  {
    var b := Bucket(m.foo[o].id);
    var m', chains' := SetHead(m, b, o), Pushed(chains, b, o);
    var xs := chains[b];
    assert Chain(m, b, xs) && Link(m, b, xs, 0) == Elem(xs, 0);
    forall c | 0 <= c < NHASH ensures Chain(m', c, chains'[c]) {
      assert Chain(m, c, chains[c]);
      if c == b {
        var ys := [o] + xs;
        forall j | 0 <= j <= |ys| ensures Link(m', b, ys, j) == Elem(ys, j) {
          if j > 1 { assert Link(m, b, xs, j - 1) == Elem(xs, j - 1); }
        }
        assert forall p :: p in ys <==> p == o || p in xs;
      } else {
        forall j | 0 <= j <= |chains[c]| ensures Link(m', c, chains[c], j) == Elem(chains[c], j) {
          assert Link(m, c, chains[c], j) == Elem(chains[c], j);
        }
      }
    }
  }

  /** The pointer in front of element i, made to skip it. */
  function Skip(m: Memory, b: nat, xs: seq<nat>, i: nat): Memory
    requires i < |xs|
  {
    var next := FooAt(m, xs[i]).next;
    if i == 0 then SetHead(m, b, next) else SetNext(m, xs[i - 1], next)
  }

  lemma SkipChained(m: Memory, chains: seq<seq<nat>>, b: nat, i: nat)
    requires Chained(m, chains) && b < NHASH && i < |chains[b]|
    ensures Chained(Skip(m, b, chains[b], i), Removed(chains, b, chains[b][i]))
  {
    var xs := chains[b];
    var m', chains' := Skip(m, b, xs, i), Removed(chains, b, xs[i]);
    assert Chain(m, b, xs);
    WithoutIs(xs, i);
    forall c | 0 <= c < NHASH ensures Chain(m', c, chains'[c]) {
      assert Chain(m, c, chains[c]);
      if c == b { SkipChain(m, b, xs, i); } else { OtherChain(m, b, xs, i, c, chains[c]); }
    }
  }

  lemma SkipChain(m: Memory, b: nat, xs: seq<nat>, i: nat)
    requires b < |m.fh| && Chain(m, b, xs) && i < |xs|
    ensures |Skip(m, b, xs, i).fh| == |m.fh| && Chain(Skip(m, b, xs, i), b, Without(xs, xs[i]))
  {
    WithoutIs(xs, i);
    var m', ys := Skip(m, b, xs, i), Without(xs, xs[i]);
    forall j | 0 <= j <= |ys| ensures Link(m', b, ys, j) == Elem(ys, j) {
      hide Distinct, Without, Position, Bucket;
      var j' := if j <= i then j else j + 1;
      assert Link(m, b, xs, j') == Elem(xs, j');
      assert Link(m, b, xs, i + 1) == Elem(xs, i + 1);
    }
  }

  lemma OtherChain(m: Memory, b: nat, xs: seq<nat>, i: nat, c: nat, ys: seq<nat>)
    requires b < |m.fh| && c < |m.fh| && b != c && Chain(m, b, xs) && Chain(m, c, ys) && i < |xs|
    ensures |Skip(m, b, xs, i).fh| == |m.fh| && Chain(Skip(m, b, xs, i), c, ys)
  {
    forall j | 0 <= j <= |ys| ensures Link(Skip(m, b, xs, i), c, ys, j) == Elem(ys, j) {
      assert Link(m, c, ys, j) == Elem(ys, j);
    }
  }

  /** Counts, and objects that are on no chain, do not matter to the chains. */
  lemma ChainedFrame(m: Memory, m': Memory, chains: seq<seq<nat>>)
    requires Chained(m, chains) && m'.fh == m.fh
    requires forall o {:trigger OnChain(m, chains, o)} :: o in m.foo && OnChain(m, chains, o) ==>
               o in m'.foo && m'.foo[o].id == m.foo[o].id && m'.foo[o].next == m.foo[o].next
    ensures Chained(m', chains)
  {
    forall c | 0 <= c < NHASH ensures Chain(m', c, chains[c]) {
      var xs := chains[c];
      assert Chain(m, c, xs);
      forall j | 0 <= j < |xs|
        ensures OnChain(m, chains, xs[j]) && xs[j] in m'.foo
      {
        assert OnChain(m, chains, xs[j]);
      }
      forall j | 0 <= j <= |xs| ensures Link(m', c, xs, j) == Elem(xs, j) { assert Link(m, c, xs, j) == Elem(xs, j); }
    }
  }

  /** A walk along a chain: the pointer behind element j, and the end exactly at null. */
  lemma WalkOn(m: Memory, chains: seq<seq<nat>>, b: nat, j: nat)
    requires Chained(m, chains) && b < NHASH && j <= |chains[b]|
    ensures Elem(chains[b], j) == 0 <==> j == |chains[b]|
    ensures j < |chains[b]| ==> chains[b][j] in m.foo && m.foo[chains[b][j]].next == Elem(chains[b], j + 1)
    ensures m.fh[b] == Elem(chains[b], 0)
  {
    assert Chain(m, b, chains[b]);
    assert Link(m, b, chains[b], 0) == Elem(chains[b], 0);
    if j < |chains[b]| { assert Link(m, b, chains[b], j + 1) == Elem(chains[b], j + 1); }
  }

  lemma {:induction false} LookupMisses(objs: map<nat, Obj>, xs: seq<nat>, id: int)
    requires forall j :: 0 <= j < |xs| ==> xs[j] in objs && objs[xs[j]].id != id
    ensures Lookup(objs, xs, id) == 0
  {
    if xs != [] {
      assert xs[0] in objs && objs[xs[0]].id != id;
      LookupMisses(objs, xs[1..], id);
    }
  }

  lemma {:induction false} LookupHits(objs: map<nat, Obj>, xs: seq<nat>, id: int, i: nat)
    requires i < |xs| && xs[i] in objs && objs[xs[i]].id == id && xs[i] != 0
    requires forall j :: 0 <= j < i ==> xs[j] in objs && objs[xs[j]].id != id
    ensures Lookup(objs, xs, id) == xs[i]
  {
    if i > 0 {
      assert xs[0] in objs && objs[xs[0]].id != id;
      LookupHits(objs, xs[1..], id, i - 1);
    }
  }

  // ---- The writes, told of the table ----

  lemma PushIsAlloc(m: Memory, chains: seq<seq<nat>>, o: nat)
    requires Chained(m, chains) && o in m.foo && !OnChain(m, chains, o) && m.foo[o].count == 1
    ensures var b := Bucket(m.foo[o].id);
            TableOf(SetHead(m, b, o), Pushed(chains, b, o)) == Alloc(TableOf(m, chains), o, m.foo[o].id)
  {
    var b := Bucket(m.foo[o].id);
    var m', chains' := SetHead(m, b, o), Pushed(chains, b, o);
    forall p | p in m.foo ensures OnChain(m', chains', p) <==> OnChain(m, chains, p) || p == o {
      assert p in [o] + chains[b] <==> p == o || p in chains[b];
    }
  }

  lemma SkipObjs(m: Memory, b: nat, xs: seq<nat>, i: nat)
    requires i < |xs|
    ensures Skip(m, b, xs, i).foo.Keys == m.foo.Keys
    ensures forall p :: p in m.foo ==> Skip(m, b, xs, i).foo[p] == m.foo[p].(next := Skip(m, b, xs, i).foo[p].next)
  {
  }

  lemma SkipOnChain(m: Memory, chains: seq<seq<nat>>, b: nat, i: nat, p: nat)
    requires Chained(m, chains) && b < NHASH && i < |chains[b]| && p in m.foo
    ensures OnChain(Skip(m, b, chains[b], i), Removed(chains, b, chains[b][i]), p) <==>
            OnChain(m, chains, p) && p != chains[b][i]
  {
    assert Chain(m, b, chains[b]);
    WithoutIs(chains[b], i);
    SkipObjs(m, b, chains[b], i);
  }

  lemma SkipIsRele(m: Memory, chains: seq<seq<nat>>, b: nat, i: nat)
    requires Chained(m, chains) && b < NHASH && i < |chains[b]| && FooAt(m, chains[b][i]).count == 1
    ensures TableOf(Skip(m, b, chains[b], i), Removed(chains, b, chains[b][i])) ==
            Rele(TableOf(m, chains), chains[b][i])
    ensures !OnChain(Skip(m, b, chains[b], i), Removed(chains, b, chains[b][i]), chains[b][i])
  {
    var o := chains[b][i];
    var m', chains' := Skip(m, b, chains[b], i), Removed(chains, b, o);
    assert OnChain(m, chains, o) && Bucket(m.foo[o].id) == b by { assert Chain(m, b, chains[b]); }
    SkipObjects(m, chains, b, i);
    SkipOnChain(m, chains, b, i, o);
  }

  lemma SkipObjects(m: Memory, chains: seq<seq<nat>>, b: nat, i: nat)
    requires Chained(m, chains) && b < NHASH && i < |chains[b]|
    ensures TableOf(Skip(m, b, chains[b], i), Removed(chains, b, chains[b][i])).objs ==
            TableOf(m, chains).objs - {chains[b][i]}
  {
    var o := chains[b][i];
    var m', chains' := Skip(m, b, chains[b], i), Removed(chains, b, o);
    var objs, objs' := TableOf(m, chains).objs, TableOf(m', chains').objs;
    hide Chained, OnChain, Skip, Removed;
    forall p ensures p in objs' <==> p in objs && p != o {
      SkipObjs(m, b, chains[b], i);
      if p in m.foo { SkipOnChain(m, chains, b, i, p); }
    }
    forall p | p in objs' ensures objs'[p] == objs[p] { SkipObjs(m, b, chains[b], i); }
    assert objs' == objs - {o};
  }

  lemma CountChanges(m: Memory, chains: seq<seq<nat>>, o: nat, c: int)
    requires OnChain(m, chains, o)
    ensures var t := TableOf(m, chains);
            TableOf(SetCount(m, o, c), chains) == t.(objs := t.objs[o := t.objs[o].(count := c)])
  {
    var m' := SetCount(m, o, c);
    forall p | p in m.foo ensures OnChain(m', chains, p) <==> OnChain(m, chains, p) {}
  }

  lemma CountHeld(m: Memory, chains: seq<seq<nat>>, o: nat)
    requires OnChain(m, chains, o)
    ensures TableOf(SetCount(m, o, m.foo[o].count + 1), chains) == Hold(TableOf(m, chains), o)
  {
    CountChanges(m, chains, o, m.foo[o].count + 1);
    assert o in TableOf(m, chains).objs;
  }

  lemma CountReleased(m: Memory, chains: seq<seq<nat>>, o: nat)
    requires OnChain(m, chains, o) && m.foo[o].count != 1
    ensures TableOf(SetCount(m, o, m.foo[o].count - 1), chains) == Rele(TableOf(m, chains), o)
  {
    CountChanges(m, chains, o, m.foo[o].count - 1);
    assert o in TableOf(m, chains).objs;
  }

  lemma TableFrame(m: Memory, m': Memory, chains: seq<seq<nat>>)
    requires |chains| == NHASH
    requires forall o {:trigger m'.foo[o]} :: o in m'.foo && OnChain(m', chains, o) ==>
             o in m.foo && OnChain(m, chains, o)
    requires forall o {:trigger OnChain(m, chains, o)} :: o in m.foo && OnChain(m, chains, o) ==>
               o in m'.foo && m'.foo[o].id == m.foo[o].id && m'.foo[o].count == m.foo[o].count
    ensures TableOf(m', chains) == TableOf(m, chains)
  {
  }
}
