/** The version with one lock: each call runs from start to end by itself. */
module FooSingleLock {
  import opened FooTable

  class Foos {
    var fh: seq<nat>
    var foo: map<nat, Foo>
    ghost var chains: seq<seq<nat>>

    ghost function Mem(): Memory
      reads this
    {
      Memory(fh, foo)
    }

    /** Between calls every object is on the chain of its identifier, and has a reference. */
    ghost predicate Valid()
      reads this
    {
      && Chained(Mem(), chains)
      && forall o {:trigger OnChain(Mem(), chains, o)} :: o in foo ==> OnChain(Mem(), chains, o) && foo[o].count >= 1
    }

    ghost function Objects(): Table
      reads this
    {
      TableOf(Mem(), chains)
    }

    constructor ()
      ensures Valid() && Objects() == Table(seq(NHASH, b => []), map[])
    {
      fh := seq(NHASH, b => 0);
      foo := map[];
      chains := seq(NHASH, b => []);
    }

    /** foo_alloc, with the address malloc found. */
    method Alloc(id: int, fp: nat)
      requires Valid() && fp != 0 && fp !in foo
      modifies this
      ensures Valid() && Objects() == FooTable.Alloc(old(Objects()), fp, id) && fp in foo
    {
      ghost var m0, chains0 := Mem(), chains;
      foo := foo[fp := Foo(1, id, 0)];
      var idx := Bucket(id);
      foo := foo[fp := foo[fp].(next := fh[idx])];
      ghost var m1 := Mem();
      Prepared(m0, m1, chains, fp);
      PushChained(m1, chains, fp);
      PushIsAlloc(m1, chains, fp);
      fh := fh[idx := fp];
      chains := Pushed(chains, idx, fp);
      forall o | o in foo ensures OnChain(Mem(), chains, o) && foo[o].count >= 1 {
        assert o != fp ==> OnChain(m1, chains0, o);
        assert forall p :: p in [fp] + chains0[idx] <==> p == fp || p in chains0[idx];
      }
    }

    /** A new object that is on no chain yet. */
    static lemma Prepared(m: Memory, m': Memory, chains: seq<seq<nat>>, fp: nat)
      requires Chained(m, chains) && fp !in m.foo && m'.fh == m.fh && fp in m'.foo && m'.foo == m.foo[fp := m'.foo[fp]]
      ensures Chained(m', chains) && TableOf(m', chains) == TableOf(m, chains) && !OnChain(m', chains, fp)
      ensures forall o {:trigger OnChain(m', chains, o)} :: o in m.foo ==>
              OnChain(m', chains, o) == OnChain(m, chains, o)
    {
      assert !OnChain(m', chains, fp) by {
        var b := Bucket(m'.foo[fp].id);
        assert Chain(m, b, chains[b]);
      }
      ChainedFrame(m, m', chains);
      TableFrame(m, m', chains);
    }

    /** foo_hold */
    method Hold(fp: nat)
      requires Valid() && fp in foo
      modifies `foo
      ensures Valid() && Objects() == FooTable.Hold(old(Objects()), fp)
      ensures foo == old(foo)[fp := old(foo)[fp].(count := old(foo)[fp].count + 1)]
    {
      hide Chained, OnChain, TableOf, FooTable.Hold;
      ghost var m := Mem();
      assert OnChain(m, chains, fp);
      CountHeld(m, chains, fp);
      foo := foo[fp := foo[fp].(count := foo[fp].count + 1)];
      Counted(m, Mem(), chains);
    }

    static lemma Counted(m: Memory, m': Memory, chains: seq<seq<nat>>)
      requires Chained(m, chains) && m'.fh == m.fh && m'.foo.Keys == m.foo.Keys
      requires forall o :: o in m.foo ==> m'.foo[o].id == m.foo[o].id && m'.foo[o].next == m.foo[o].next
      ensures Chained(m', chains) && forall o {:trigger OnChain(m', chains, o)} ::
              OnChain(m', chains, o) == OnChain(m, chains, o)
    {
      ChainedFrame(m, m', chains);
    }

    /** foo_find */
    method Find(id: int) returns (fp: nat)
      requires Valid()
      modifies `foo
      ensures Valid() && (Objects(), fp) == FooTable.Find(old(Objects()), id) && foo.Keys == old(foo.Keys)
      ensures fp != 0 ==> fp in foo && foo[fp].id == id
    {
      ghost var m, b := Mem(), Bucket(id);
      ghost var xs, pos, objs := chains[b], 0, Objects().objs;
      WalkOn(m, chains, b, 0);
      fp := fh[Bucket(id)];
      while fp != 0 && foo[fp].id != id
        invariant Mem() == m && pos <= |xs| && fp == Elem(xs, pos) && (fp != 0 ==> pos < |xs| && fp in foo)
        invariant forall j :: 0 <= j < pos ==> xs[j] in objs && objs[xs[j]].id != id
        decreases |xs| - pos
      {
        WalkOn(m, chains, b, pos);
        WalkOn(m, chains, b, pos + 1);
        assert OnChain(m, chains, fp);
        fp := foo[fp].next;
        pos := pos + 1;
      }
      if fp != 0 {
        assert OnChain(m, chains, fp);
        LookupHits(objs, xs, id, pos);
        assert Lookup(objs, xs, id) == fp;
        Hold(fp);
      } else {
        WalkOn(m, chains, b, pos);
        LookupMisses(objs, xs, id);
        assert Lookup(objs, xs, id) == 0;
      }
    }

    /** The loop of foo_rele: takes fp off its chain. */
    method Unlink(fp: nat, ghost i: nat)
      requires Chained(Mem(), chains) && fp in foo
      requires var b := Bucket(foo[fp].id); i < |chains[b]| && chains[b][i] == fp
      modifies this
      ensures Mem() == var b := Bucket(old(foo)[fp].id); Skip(old(Mem()), b, old(chains)[b], i)
      ensures var b := Bucket(old(foo)[fp].id); chains == Removed(old(chains), b, fp) && Chained(Mem(), chains)
    {
      ghost var m := Mem();
      var idx := Bucket(foo[fp].id);
      ghost var xs := chains[idx];
      WalkOn(m, chains, idx, 0);
      WalkOn(m, chains, idx, i);
      SkipChained(m, chains, idx, i);
      var tfp := fh[idx];
      if tfp == fp {
        assert i == 0 by { assert Chain(m, idx, xs); }
        fh := fh[idx := foo[fp].next];
      } else {
        ghost var pos := 0;
        while foo[tfp].next != fp
          invariant Mem() == m && chains == old(chains) && pos < i && tfp == xs[pos] && tfp in foo
          decreases i - pos
        {
          WalkOn(m, chains, idx, pos);
          WalkOn(m, chains, idx, pos + 1);
          tfp := foo[tfp].next;
          pos := pos + 1;
        }
        WalkOn(m, chains, idx, pos);
        assert pos + 1 == i by { assert Chain(m, idx, xs); }
        foo := foo[tfp := foo[tfp].(next := foo[fp].next)];
      }
      chains := Removed(chains, idx, fp);
    }

    /** foo_rele */
    method Rele(fp: nat)
      requires Valid() && fp in foo
      modifies this
      ensures Valid() && Objects() == FooTable.Rele(old(Objects()), fp)
      ensures fp in foo <==> old(foo)[fp].count != 1
    {
      hide Chained, OnChain, TableOf, FooTable.Rele;
      ghost var m := Mem();
      assert OnChain(m, chains, fp);
      if foo[fp].count != 1 { CountReleased(m, chains, fp); }
      foo := foo[fp := foo[fp].(count := foo[fp].count - 1)];
      Counted(m, Mem(), chains);
      assert Mem() == SetCount(m, fp, m.foo[fp].count - 1);
      if foo[fp].count == 0 {
        LastReference(m, fp);
      }
    }

    /** The last reference is gone: unlink the object and free it. */
    method LastReference(ghost m: Memory, fp: nat)
      requires Chained(m, chains) && OnChain(m, chains, fp) && m.foo[fp].count == 1 && Mem() == SetCount(m, fp, 0)
      requires forall o {:trigger OnChain(m, chains, o)} :: o in m.foo ==> OnChain(m, chains, o) && m.foo[o].count >= 1
      requires Chained(Mem(), chains)
      modifies this
      ensures Valid() && Objects() == FooTable.Rele(TableOf(m, old(chains)), fp) && fp !in foo
    {
      ghost var b := Bucket(m.foo[fp].id);
      ghost var i :| 0 <= i < |chains[b]| && chains[b][i] == fp;
      hide Chained, OnChain, TableOf, FooTable.Rele, Skip, SetCount, Removed;
      SkipCounted(m, b, chains[b], i);
      Gone(m, chains, b, i);
      Unlink(fp, i);
      foo := foo - {fp};
    }

    /** A count plays no part in unlinking, and the object that had it is freed. */
    static lemma SkipCounted(m: Memory, b: nat, xs: seq<nat>, i: nat)
      requires i < |xs| && xs[i] in m.foo && b < |m.fh|
      ensures var (m1, m2) := (Skip(m, b, xs, i), Skip(SetCount(m, xs[i], 0), b, xs, i));
              m1.fh == m2.fh && m1.foo - {xs[i]} == m2.foo - {xs[i]}
      ensures SetCount(m, xs[i], 0).foo[xs[i]] == m.foo[xs[i]].(count := 0)
    {
    }

    /** The table without the object. */
    static lemma Gone(m: Memory, chains: seq<seq<nat>>, b: nat, i: nat)
      requires Chained(m, chains) && b < NHASH && i < |chains[b]| && FooAt(m, chains[b][i]).count == 1
      requires forall o {:trigger OnChain(m, chains, o)} :: o in m.foo ==> OnChain(m, chains, o) && m.foo[o].count >= 1
      ensures var fp := chains[b][i];
              var m1 := Skip(m, b, chains[b], i);
              var (m2, cs) := (Memory(m1.fh, m1.foo - {fp}), Removed(chains, b, fp));
              && Chained(m2, cs) && TableOf(m2, cs) == FooTable.Rele(TableOf(m, chains), fp)
              && forall o {:trigger OnChain(m2, cs, o)} :: o in m2.foo ==> OnChain(m2, cs, o) && m2.foo[o].count >= 1
    {
      var fp := chains[b][i];
      var (m1, cs) := (Skip(m, b, chains[b], i), Removed(chains, b, fp));
      var m2 := Memory(m1.fh, m1.foo - {fp});
      SkipIsRele(m, chains, b, i);
      SkipChained(m, chains, b, i);
      SkipObjs(m, b, chains[b], i);
      hide Chained, TableOf, FooTable.Rele, Skip, Removed;
      Freed(m1, m2, cs, fp);
      forall o | o in m2.foo ensures OnChain(m2, cs, o) && m2.foo[o].count >= 1 {
        assert OnChain(m, chains, o);
        SkipOnChain(m, chains, b, i, o);
      }
    }

    /** Freeing an object that is on no chain changes nothing of the table. */
    static lemma Freed(m: Memory, m': Memory, chains: seq<seq<nat>>, fp: nat)
      requires Chained(m, chains) && !OnChain(m, chains, fp) && m'.fh == m.fh
      requires forall o :: o in m'.foo <==> o in m.foo && o != fp
      requires forall o :: o in m'.foo ==> m'.foo[o] == m.foo[o]
      ensures Chained(m', chains) && TableOf(m', chains) == TableOf(m, chains)
    {
      ChainedFrame(m, m', chains);
      TableFrame(m, m', chains);
    }
  }

  // ---- What the calls mean together ----

  /** Giving a reference back undoes taking it. */
  lemma ReleUndoesHold(t: Table, o: nat)
    requires InTable(t, o) && t.objs[o].count >= 1
    ensures Rele(Hold(t, o), o) == t
  {
    assert t.objs[o := t.objs[o].(count := t.objs[o].count + 1)][o := t.objs[o]] == t.objs;
  }

  /** A fresh object is what a find for its identifier returns, and releasing its only reference undoes the alloc. */
  lemma AllocThen(t: Table, o: nat, id: int)
    requires |t.chains| == NHASH && o != 0 && o !in t.objs
    ensures Find(Alloc(t, o, id), id) == (Hold(Alloc(t, o, id), o), o)
    ensures Rele(Alloc(t, o, id), o) == t
  {
    var b := Bucket(id);
    var t' := Alloc(t, o, id);
    assert t'.chains[b] == [o] + t.chains[b] && ([o] + t.chains[b])[1..] == t.chains[b];
    assert ([o] + t.chains[b])[..0] == [];
    assert Without(t'.chains[b], o) == t.chains[b];
    assert t'.objs - {o} == t.objs;
    assert t'.chains[b := t.chains[b]] == t.chains;
  }
}
