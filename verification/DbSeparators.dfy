/**
 What a separator in a key does. The library stores such a key like any other, but no read of its record ever
 succeeds, so every call that searches its chain aborts, and so does every scan.
 */
module DbSeparators {
  import opened CText
  import opened DbFormat
  import opened DbFiles
  import opened DbEffects

  /** There is a key with a separator on the chain of this key. */
  ghost predicate Stuck(hash: Hasher, m: map<CString, CString>, key: CString) {
    exists d :: d in m && SEP in d && hash(d) == hash(key)
  }

  /** Only the first record of a chain can have a separator in its key: no search gets past it to add another. */
  ghost predicate CleanBehind(f: Files, g: Shape) {
    forall k, j {:trigger g.lists[k][j]} :: 1 <= k < |g.lists| && 0 < j < |g.lists[k]| ==>
      g.lists[k][j] in f.recs && SEP !in f.recs[g.lists[k][j]].key
  }

  ghost predicate CleanChain(f: Files, xs: seq<nat>) {
    forall o :: o in xs ==> o in f.recs && SEP !in f.recs[o].key
  }

  /** The first record of a chain tells whether it is stuck. */
  lemma StuckIff(hash: Hasher, f: Files, g: Shape, m: map<CString, CString>, key: CString)
    requires |g.lists| == NLIST && InTable(hash) && ChainsAgree(hash, f, g, m) && CleanBehind(f, g)
    ensures var xs := g.lists[1 + hash(key)];
            && (Stuck(hash, m, key) <==> |xs| > 0 && xs[0] in f.recs && SEP in f.recs[xs[0]].key)
            && (Stuck(hash, m, key) || CleanChain(f, xs))
  {
    var k := 1 + hash(key);
    var xs := g.lists[k];
    assert ChainAgrees(hash, f, g, k, m);
    forall o | o in xs && SEP in f.recs[o].key ensures Stuck(hash, m, key) { assert f.recs[o].key in m; }
    if d :| d in m && SEP in d && hash(d) == hash(key) {
      assert HasKey(f, xs, d);
      var j :| 0 <= j < |xs| && xs[j] in f.recs && f.recs[xs[j]].key == d;
      assert g.lists[k][j] == xs[j];
      assert j == 0;
    }
  }

  lemma FreeClean(f: Files, g: Shape)
    requires Sound(f, g) && FreeBlank(f, g)
    ensures CleanChain(f, g.lists[FREE])
  {
    ListWalkable(f, g, FREE);
  }

  ghost predicate SameKeys(f: Files, g: Shape, f': Files) {
    forall l, j {:trigger g.lists[l][j]} :: 1 <= l < |g.lists| && 0 <= j < |g.lists[l]| && g.lists[l][j] in f.recs ==>
      g.lists[l][j] in f'.recs && f'.recs[g.lists[l][j]].key == f.recs[g.lists[l][j]].key
  }

  lemma BehindAfterPush(f: Files, g: Shape, f': Files, g': Shape, k: nat, o: nat)
    requires CleanBehind(f, g) && SameKeys(f, g, f') && 1 <= k < |g.lists| && CleanChain(f, g.lists[k])
    requires g'.lists == g.lists[k := [o] + g.lists[k]]
    ensures CleanBehind(f', g')
  {
    forall l, j | 1 <= l < |g'.lists| && 0 < j < |g'.lists[l]|
      ensures g'.lists[l][j] in f'.recs && SEP !in f'.recs[g'.lists[l][j]].key
    {
      if l == k { assert g'.lists[l][j] == g.lists[k][j - 1]; } else { assert g'.lists[l][j] == g.lists[l][j]; }
    }
  }

  lemma InsertBehind(f: Files, g: Shape, k: nat, key: CString, data: CString)
    requires Sound(f, g) && CleanBehind(f, g) && 1 <= k < NLIST && CleanChain(f, g.lists[k])
    ensures CleanBehind(Inserted(f, k, key, data), InsertedShape(f, g, k))
  {
    InsertKeepsOthers(f, g, k, key, data);
    hide Inserted;
    var f' := Inserted(f, k, key, data);
    forall l, j | 1 <= l < |g.lists| && 0 <= j < |g.lists[l]| && g.lists[l][j] in f.recs
      ensures g.lists[l][j] in f'.recs && f'.recs[g.lists[l][j]].key == f.recs[g.lists[l][j]].key
    {
      assert SameEntry(f, f', g.lists[l][j]);
    }
    BehindAfterPush(f, g, f', InsertedShape(f, g, k), k, f.idxEnd);
  }

  lemma ReuseBehind(f: Files, g: Shape, k: nat, o: nat, r: Rec, data: CString)
    requires Sound(f, g) && CleanBehind(f, g) && 1 <= k < NLIST && CleanChain(f, g.lists[k])
    requires o in f.recs && g.owner[o] >= NLIST && r.datoff == f.recs[o].datoff
    ensures CleanBehind(Reused(f, k, o, r, data), Pushed(g, k, o))
  {
    var f' := Reused(f, k, o, r, data);
    forall l, j | 1 <= l < |g.lists| && 0 <= j < |g.lists[l]| && g.lists[l][j] in f.recs
      ensures g.lists[l][j] in f'.recs && f'.recs[g.lists[l][j]].key == f.recs[g.lists[l][j]].key
    {
      assert g.owner[g.lists[l][j]] == l;
      ReuseKeepsOthers(f, g, k, o, r, data, g.lists[l][j]);
    }
    hide Reused;
    BehindAfterPush(f, g, f', Pushed(g, k, o), k, o);
  }

  /** Taking a free record off its list. */
  lemma TakeBehind(f: Files, g: Shape, slot: nat, v: nat, pos: nat)
    requires CleanBehind(f, g) && 0 < |g.lists| && pos < |g.lists[FREE]|
    ensures CleanBehind(SetPtr(f, slot, v), Unlinked(g, FREE, pos, 0))
  {
    var f', g' := SetPtr(f, slot, v), Unlinked(g, FREE, pos, 0);
    forall l, j | 1 <= l < |g'.lists| && 0 < j < |g'.lists[l]|
      ensures g'.lists[l][j] in f'.recs && SEP !in f'.recs[g'.lists[l][j]].key
    {
      assert g'.lists[l][j] == g.lists[l][j];
    }
  }

  lemma DeleteBehind(f: Files, g: Shape, k: nat, pos: nat)
    requires Sound(f, g) && FreeBlank(f, g) && CleanBehind(f, g) && 1 <= k < NLIST && pos < |g.lists[k]|
    ensures CleanBehind(Deleted(f, k, g.lists[k], pos), Pushed(Unlinked(g, k, pos, 0), FREE, g.lists[k][pos]))
  {
    var o := g.lists[k][pos];
    var f', g1 := Deleted(f, k, g.lists[k], pos), Unlinked(g, k, pos, 0);
    var g' := Pushed(g1, FREE, o);
    hide Deleted;
    forall l, j | 1 <= l < |g'.lists| && 0 < j < |g'.lists[l]|
      ensures g'.lists[l][j] in f'.recs && SEP !in f'.recs[g'.lists[l][j]].key
    {
      var i := if l == k && j >= pos then j + 1 else j;
      assert g'.lists[l][j] == g.lists[l][i] && 0 < i;
      assert g.lists[l][i] != o by {
        if l == k { assert i != pos; } else { assert g.owner[o] == k && g.owner[g.lists[l][i]] == l; }
      }
      DeleteKeepsOthers(f, g, k, pos, g.lists[l][i]);
    }
  }

  /** A record with a separator in its key is in the map, and each such key has a record. */
  lemma DirtyLives(hash: Hasher, f: Files, g: Shape, m: map<CString, CString>)
    requires Kept(hash, f, g, m) && NoneLoose(g)
    ensures forall o :: o in f.recs && SEP in f.recs[o].key ==> f.recs[o].key in m
    ensures forall d :: d in m ==> exists o :: o in f.recs && f.recs[o].key == d
  {
    forall o | o in f.recs && SEP in f.recs[o].key ensures f.recs[o].key in m {
      var k := g.owner[o];
      assert o in g.lists[k] && k != FREE;
      assert ChainAgrees(hash, f, g, k, m);
    }
    forall d | d in m ensures exists o :: o in f.recs && f.recs[o].key == d {
      var k := 1 + hash(d);
      assert ChainAgrees(hash, f, g, k, m) && HasKey(f, g.lists[k], d);
      var o :| o in g.lists[k] && o in f.recs && f.recs[o].key == d;
    }
  }
}
