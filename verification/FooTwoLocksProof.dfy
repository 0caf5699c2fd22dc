/** Every interleaving of the two-lock version keeps its invariant and is one the one-lock version allows. */
module FooTwoLocksProof {
  import opened Options
  import opened Seals
  import opened FooTable
  import opened FooTwoLocks

  ghost predicate Moved(s: Sys, s': Sys, p: nat) {
    p < |s.threads| == |s'.threads| && forall q :: 0 <= q < |s.threads| && q != p ==> s'.threads[q] == s.threads[q]
  }

  /** With a count of 1, whoever owns that reference is alone. */
  lemma Alone(s: Sys, p: nat, q: nat, o: nat)
    requires InvOf(s) == Firm && p < |s.threads| && q < |s.threads| && p != q
    requires o in s.mem.foo && s.mem.foo[o].count == 1 && Owed(s.threads[q], o) >= 1
    ensures Owed(s.threads[p], o) == 0
  {
    hide InvOf;
    assert Counted(s, o) by { Look(s); }
    RefsOfTwo(s.threads, p, q, o);
  }

  lemma Together(s: Sys)
    requires Chained(s.mem, s.chains) && Counts(s) && Locks(s) && AllKnow(s) && AllPlaced(s)
    ensures InvOf(s) == Firm
  {
  }

  lemma KnowsOf(s: Sys, p: nat)
    requires InvOf(s) == Firm && p < |s.threads|
    ensures Knows(s.mem, s.chains, s.fLock, s.threads[p])
  {
    Look(s);
  }

  lemma WalkIn(s: Sys, b: nat, j: nat)
    requires InvOf(s) == Firm && b < NHASH == |s.chains| && j <= |s.chains[b]|
    ensures Head(s.mem, b) == Elem(s.chains[b], 0)
    ensures var xs := s.chains[b];
            && (Elem(xs, j) == 0 <==> j == |xs|)
            && (j < |xs| ==> xs[j] in s.mem.foo && s.mem.foo[xs[j]].next == Elem(xs, j + 1))
  {
    Look(s);
    WalkOn(s.mem, s.chains, b, j);
  }

  lemma ChainIn(s: Sys, b: nat)
    requires InvOf(s) == Firm && b < NHASH
    ensures |s.chains| == NHASH
    ensures forall o :: o in s.chains[b] ==> o != 0 && o in s.mem.foo && OnChain(s.mem, s.chains, o)
  {
    Look(s);
    assert Chain(s.mem, b, s.chains[b]);
  }

  // ---- Locks ----

  /** The table lock as the old and new places of p demand, and the object locks untouched. */
  lemma HashTurn(s: Sys, s': Sys, p: nat)
    requires InvOf(s) == Firm && Moved(s, s', p) && s'.fLock == s.fLock
    requires var me, me' := s.threads[p], s'.threads[p];
             && HoldsF(me'.pc) == HoldsF(me.pc) && (HoldsF(me.pc) ==> me'.fp == me.fp)
             && s'.hashLock == (if HoldsHash(me'.pc) == HoldsHash(me.pc) then s.hashLock
                                else if HoldsHash(me'.pc) then Some(p) else None)
             && (HoldsHash(me'.pc) && !HoldsHash(me.pc) ==> s.hashLock == None)
    ensures Locks(s')
  {
    hide InvOf;
    assert Locks(s) by { Look(s); }
    hide HoldsHash, HoldsF;
    forall q: nat ensures HasHash(s', q) <==> q < |s'.threads| && HoldsHash(s'.threads[q].pc) {
      var was, mine := HasHash(s, q), HasHash(s, p);
    }
    forall o: nat, q: nat
      ensures HasF(s', o, q) <==> q < |s'.threads| && HoldsF(s'.threads[q].pc) && s'.threads[q].fp == o
    {
      var was := HasF(s, o, q);
    }
  }

  lemma TakeFLocks(s: Sys, p: nat, next: Pc)
    requires InvOf(s) == Firm && p < |s.threads| && s.threads[p].fp !in s.fLock
    requires HoldsF(next) && !HoldsF(s.threads[p].pc) && HoldsHash(next) == HoldsHash(s.threads[p].pc)
    ensures Locks(TakeF(s, p, next))
  {
    hide InvOf;
    assert Locks(s) by { Look(s); }
    hide HoldsHash, HoldsF;
    var s' := TakeF(s, p, next);
    forall q: nat
      ensures HasHash(s', q) <==> q < |s'.threads| && HoldsHash(s'.threads[q].pc)
    {
      var was := HasHash(s, q);
    }
    forall o: nat, q: nat
      ensures HasF(s', o, q) <==> q < |s'.threads| && HoldsF(s'.threads[q].pc) && s'.threads[q].fp == o
    {
      var was, there := HasF(s, o, q), HasF(s, s.threads[p].fp, q);
    }
  }

  lemma DropFLocks(s: Sys, s': Sys, p: nat, next: Pc)
    requires InvOf(s) == Firm && p < |s.threads| && (s' == DropF(s, p, next) || s' == DropF(Owning(s, p), p, next))
    requires !HoldsF(next) && HoldsF(s.threads[p].pc) && HoldsHash(next) == HoldsHash(s.threads[p].pc)
    ensures Locks(s')
  {
    hide InvOf;
    assert Locks(s) by { Look(s); }
    hide HoldsHash, HoldsF;
    forall q: nat
      ensures HasHash(s', q) <==> q < |s'.threads| && HoldsHash(s'.threads[q].pc)
    {
      var was := HasHash(s, q);
    }
    forall o: nat, q: nat
      ensures HasF(s', o, q) <==> q < |s'.threads| && HoldsF(s'.threads[q].pc) && s'.threads[q].fp == o
    {
      var was, mine := HasF(s, o, q), HasF(s, o, p);
    }
  }

  // ---- Steps that do not change the objects ----

  ghost predicate FreeingFree(s: Sys, s': Sys, p: nat) {
    forall q :: 0 <= q < |s.threads| && q != p && s.threads[q].pc == RFree ==> s.threads[q].fp !in s'.fLock
  }

  lemma StillFree(s: Sys, s': Sys, p: nat)
    requires InvOf(s) == Firm && s'.fLock.Keys <= s.fLock.Keys
    ensures FreeingFree(s, s', p)
  {
    hide InvOf;
    forall q | 0 <= q < |s.threads| && s.threads[q].pc == RFree ensures s.threads[q].fp !in s.fLock { KnowsOf(s, q); }
  }

  /** Only p's registers and the locks change. */
  lemma Quiet(s: Sys, s': Sys, p: nat)
    requires InvOf(s) == Firm && Moved(s, s', p) && s'.mem == s.mem && s'.chains == s.chains && Locks(s')
    requires Knows(s'.mem, s'.chains, s'.fLock, s'.threads[p])
    requires forall o: nat {:trigger Owed(s'.threads[p], o)} :: Owed(s'.threads[p], o) == Owed(s.threads[p], o)
    requires Loose(s'.threads[p]) == Loose(s.threads[p])
    requires FreeingFree(s, s', p)
    ensures InvOf(s') == Firm
  {
    hide InvOf, Knows;
    Look(s);
    assert s'.threads == s.threads[p := s'.threads[p]];
    forall o: nat ensures Counted(s', o) {
      assert Counted(s, o);
      RefsPut(s.threads, p, s'.threads[p], o);
      assert Owed(s'.threads[p], o) == Owed(s.threads[p], o);
    }
    forall q | 0 <= q < |s'.threads| ensures Knows(s'.mem, s'.chains, s'.fLock, s'.threads[q]) {
      if q != p { StillKnows(s, s', p, q); }
    }
    PlacedKept(s, s', p);
    Together(s');
  }

  lemma StillKnows(s: Sys, s': Sys, p: nat, q: nat)
    requires InvOf(s) == Firm && q < |s.threads| && q != p && s'.mem == s.mem && s'.chains == s.chains
    requires FreeingFree(s, s', p)
    ensures Knows(s'.mem, s'.chains, s'.fLock, s.threads[q])
  {
    hide InvOf;
    KnowsOf(s, q);
  }

  /** A step that leaves the objects, the references and the loose object of its thread alone. */
  ghost predicate QuietStep(s: Sys, s': Sys, p: nat) {
    && Moved(s, s', p) && s'.mem == s.mem && s'.chains == s.chains
    && (forall o: nat {:trigger Owed(s'.threads[p], o)} :: Owed(s'.threads[p], o) == Owed(s.threads[p], o))
    && Loose(s'.threads[p]) == Loose(s.threads[p])
  }

  /** What follows a lock call or a change of a count. */
  function After(pc: Pc): Pc {
    match pc
    case ALockF => AUnlockHash
    case HLock => HInc
    case FLock => FInc
    case RLock => RTest
    case RLockF => RRecheck
    case FUnlock => FUnlockHash
    case RUnlockFirst => RLockHash
    case RUnlockF2 => RUnlockHash2
    case RUnlockF => RFree
    case ALockHash => ANext
    case FLockHash => FHead
    case RLockHash => RLockF
    case AUnlockHash => AUnlockF
    case RUnlockHash => RUnlockF
    case HInc => HUnlock
    case FInc => FUnlock
    case RDec => RUnlock
    case RDec2 => RUnlockF2
    case _ => Idle
  }

  lemma StillOwed(me: Thread, me': Thread)
    requires me'.refs == me.refs && (Carries(me'.pc) && me'.fp != 0 <==> Carries(me.pc) && me.fp != 0)
    requires Carries(me.pc) && me.fp != 0 ==> me'.fp == me.fp
    ensures forall o: nat {:trigger Owed(me', o)} :: Owed(me', o) == Owed(me, o)
  {
  }

  lemma Owned(me: Thread, next: Pc)
    requires Carries(me.pc) && !Carries(next)
    ensures var me' := me.(pc := next, refs := if me.fp == 0 then me.refs else me.refs + multiset{me.fp});
            forall o: nat {:trigger Owed(me', o)} :: Owed(me', o) == Owed(me, o)
  {
  }

  lemma TakeIs(s: Sys, p: nat)
    requires p < |s.threads| && Enabled(s, p) && s.threads[p].pc in {ALockF, HLock, FLock, RLock, RLockF}
    ensures Step(s, p) == TakeF(s, p, After(s.threads[p].pc))
  {
    hide TakeF;
  }

  lemma TakeQuiet(s: Sys, p: nat)
    requires p < |s.threads| && Enabled(s, p) && s.threads[p].pc in {ALockF, HLock, FLock, RLock, RLockF}
    ensures QuietStep(s, Step(s, p), p)
    ensures var next := After(s.threads[p].pc);
            HoldsF(next) && !HoldsF(s.threads[p].pc) && HoldsHash(next) == HoldsHash(s.threads[p].pc)
  {
    hide Step;
    TakeIs(s, p);
  }

  lemma DropIs(s: Sys, p: nat)
    requires p < |s.threads|
    requires s.threads[p].pc in {AUnlockF, HUnlock, FUnlock, RUnlock, RUnlockFirst, RUnlockF2, RUnlockF}
    ensures var (pc, s') := (s.threads[p].pc, Step(s, p));
            s' == if pc in {AUnlockF, HUnlock} then DropF(Owning(s, p), p, Idle) else DropF(s, p, After(pc))
  {
    hide DropF, Owning;
  }

  lemma DropQuiet(s: Sys, p: nat)
    requires p < |s.threads|
    requires s.threads[p].pc in {AUnlockF, HUnlock, FUnlock, RUnlock, RUnlockFirst, RUnlockF2, RUnlockF}
    ensures QuietStep(s, Step(s, p), p)
    ensures var next := After(s.threads[p].pc);
            && !HoldsF(next) && HoldsF(s.threads[p].pc) && HoldsHash(next) == HoldsHash(s.threads[p].pc)
            && Step(s, p).fLock.Keys <= s.fLock.Keys
  {
    hide Step;
    DropIs(s, p);
    var me := s.threads[p];
    if me.pc in {AUnlockF, HUnlock} { Owned(me, Idle); } else { StillOwed(me, me.(pc := After(me.pc))); }
    hide Owed, Carries;
  }

  lemma HashIs(s: Sys, p: nat)
    requires p < |s.threads| && Enabled(s, p)
    requires s.threads[p].pc in {ALockHash, FLockHash, RLockHash, AUnlockHash, FUnlockHash, RUnlockHash2, RUnlockHash}
    ensures var (pc, s') := (s.threads[p].pc, Step(s, p));
            s' == if pc in {ALockHash, FLockHash, RLockHash} then TakeHash(s, p, After(pc))
                  else if pc == FUnlockHash then DropHash(Owning(s, p), p, Idle) else DropHash(s, p, After(pc))
  {
    hide TakeHash, DropHash, Owning;
  }

  lemma HashQuiet(s: Sys, p: nat)
    requires p < |s.threads| && Enabled(s, p)
    requires s.threads[p].pc in {ALockHash, FLockHash, RLockHash, AUnlockHash, FUnlockHash, RUnlockHash2, RUnlockHash}
    ensures QuietStep(s, Step(s, p), p) && Step(s, p).fLock == s.fLock
  {
    hide Step;
    HashIs(s, p);
    var me := s.threads[p];
    if me.pc == FUnlockHash { Owned(me, Idle); } else { StillOwed(me, me.(pc := After(me.pc))); }
    hide Owed, Carries;
  }

  lemma LookQuiet(s: Sys, p: nat)
    requires p < |s.threads| && s.threads[p].pc in {FHead, FTest, RTest, RRecheck, RHead, RWalk}
    ensures QuietStep(s, Step(s, p), p) && Step(s, p).fLock == s.fLock
  {
    hide FooAt, Head, Bucket;
    var me' := Step(s, p).threads[p];
    assert Step(s, p) == Set(s, p, me')
           && me' == s.threads[p].(pc := me'.pc, fp := me'.fp, tfp := me'.tfp, pos := me'.pos);
    hide Step, Enabled;
    StillOwed(s.threads[p], me');
    hide Owed, Carries;
  }

  lemma PlacedKept(s: Sys, s': Sys, p: nat)
    requires AllPlaced(s) && Moved(s, s', p) && Loose(s'.threads[p]) == Loose(s.threads[p])
    requires forall o {:trigger OnChain(s'.mem, s'.chains, o)} :: o in s'.mem.foo ==>
               o in s.mem.foo && (OnChain(s.mem, s.chains, o) ==> OnChain(s'.mem, s'.chains, o))
    ensures AllPlaced(s')
  {
    forall o | o in s'.mem.foo ensures Placed(s', o) {
      var here := OnChain(s'.mem, s'.chains, o);
      assert Placed(s, o);
      if !OnChain(s.mem, s.chains, o) {
        var q :| 0 <= q < |s.threads| && Loose(s.threads[q]) == Some(o);
        assert Loose(s'.threads[q]) == Some(o);
      }
    }
  }

  /** An object lock that p may take is not one of an object about to be freed. */
  lemma NotFreeing(s: Sys, p: nat, q: nat)
    requires InvOf(s) == Firm && p < |s.threads| && q < |s.threads| && q != p && s.threads[q].pc == RFree
    requires s.threads[p].pc in {ALockF, HLock, FLock, RLock, RLockF}
    ensures s.threads[q].fp != s.threads[p].fp
  {
    hide InvOf;
    KnowsOf(s, p);
    KnowsOf(s, q);
    if s.threads[p].pc == FLock {
      ChainIn(s, Bucket(s.threads[p].id));
    } else if s.threads[q].fp == s.threads[p].fp {
      Alone(s, p, q, s.threads[p].fp);
    }
  }

  lemma OwnedExists(s: Sys, p: nat, o: nat)
    requires InvOf(s) == Firm && p < |s.threads| && Owed(s.threads[p], o) >= 1
    ensures o in s.mem.foo && o != 0
  {
    hide InvOf;
    assert Counted(s, o) by { Look(s); }
    RefsPut(s.threads, p, s.threads[p], o);
  }

  lemma KeepsTakeF(s: Sys, p: nat)
    requires InvOf(s) == Firm && p < |s.threads| && s.threads[p].pc in {ALockF, HLock, FLock, RLock, RLockF}
             && Enabled(s, p)
    ensures InvOf(Step(s, p)) == Firm
  {
    hide InvOf, Knows, Step;
    var s' := Step(s, p);
    TakeQuiet(s, p);
    TakeIs(s, p);
    assert s.threads[p].fp !in s.fLock;
    TakeFLocks(s, p, After(s.threads[p].pc));
    forall q | 0 <= q < |s.threads| && q != p && s.threads[q].pc == RFree ensures s.threads[q].fp !in s'.fLock {
      FreeUnlocked(s, q);
      NotFreeing(s, p, q);
    }
    TakeKnows(s, p);
    Quiet(s, s', p);
  }

  lemma FreeUnlocked(s: Sys, q: nat)
    requires InvOf(s) == Firm && q < |s.threads| && s.threads[q].pc == RFree
    ensures s.threads[q].fp !in s.fLock
  {
    hide InvOf;
    KnowsOf(s, q);
  }

  lemma TakeKnows(s: Sys, p: nat)
    requires InvOf(s) == Firm && p < |s.threads| && s.threads[p].pc in {ALockF, HLock, FLock, RLock, RLockF}
             && Enabled(s, p)
    ensures var s' := Step(s, p);
            Knows(s'.mem, s'.chains, s'.fLock, s'.threads[p])
  {
    hide InvOf, Step;
    TakeIs(s, p);
    KnowsOf(s, p);
    if s.threads[p].pc != FLock { OwnedExists(s, p, s.threads[p].fp); }
  }

  lemma KeepsDropF(s: Sys, p: nat)
    requires InvOf(s) == Firm && p < |s.threads|
    requires s.threads[p].pc in {AUnlockF, HUnlock, FUnlock, RUnlock, RUnlockFirst, RUnlockF2, RUnlockF}
    ensures InvOf(Step(s, p)) == Firm
  {
    hide InvOf, Knows, Step;
    var s' := Step(s, p);
    DropQuiet(s, p);
    DropIs(s, p);
    DropFLocks(s, s', p, After(s.threads[p].pc));
    StillFree(s, s', p);
    DropKnows(s, p);
    Quiet(s, s', p);
  }

  lemma DropKnows(s: Sys, p: nat)
    requires InvOf(s) == Firm && p < |s.threads|
    requires s.threads[p].pc in {AUnlockF, HUnlock, FUnlock, RUnlock, RUnlockFirst, RUnlockF2, RUnlockF}
    ensures var s' := Step(s, p);
            Knows(s'.mem, s'.chains, s'.fLock, s'.threads[p])
  {
    hide InvOf, Step;
    DropIs(s, p);
    KnowsOf(s, p);
  }

  lemma KeepsHashLock(s: Sys, p: nat)
    requires InvOf(s) == Firm && p < |s.threads| && Enabled(s, p)
    requires s.threads[p].pc in {ALockHash, FLockHash, RLockHash, AUnlockHash, FUnlockHash, RUnlockHash2, RUnlockHash}
    ensures InvOf(Step(s, p)) == Firm
  {
    hide InvOf, Knows;
    var s' := Step(s, p);
    HashQuiet(s, p);
    hide Step;
    assert Locks(s') by {
      HashIs(s, p);
      HashTurn(s, s', p);
    }
    StillFree(s, s', p);
    HashKnows(s, p);
    Quiet(s, s', p);
  }

  lemma HashKnows(s: Sys, p: nat)
    requires InvOf(s) == Firm && p < |s.threads| && Enabled(s, p)
    requires s.threads[p].pc in {ALockHash, FLockHash, RLockHash, AUnlockHash, FUnlockHash, RUnlockHash2, RUnlockHash}
    ensures var s' := Step(s, p);
            Knows(s'.mem, s'.chains, s'.fLock, s'.threads[p])
  {
    hide InvOf, Step;
    HashIs(s, p);
    KnowsOf(s, p);
  }

  // ---- Looking ----

  /** An object somebody owns a reference to is on its chain, unless a thread is linking or unlinking it. */
  lemma OwnedIsLinked(s: Sys, p: nat, o: nat)
    requires InvOf(s) == Firm && p < |s.threads| && Owed(s.threads[p], o) >= 1 && Loose(s.threads[p]) != Some(o)
    ensures o in s.mem.foo && OnChain(s.mem, s.chains, o)
  {
    hide InvOf;
    Look(s);
    assert Counted(s, o);
    RefsPut(s.threads, p, s.threads[p], o);
    assert Placed(s, o);
    if !OnChain(s.mem, s.chains, o) {
      var q :| 0 <= q < |s.threads| && Loose(s.threads[q]) == Some(o);
      KnowsOf(s, q);
      Alone(s, p, q, o);
    }
  }

  lemma FindHead(s: Sys, p: nat)
    requires InvOf(s) == Firm && p < |s.threads| && s.threads[p].pc == FHead
    ensures Knows(s.mem, s.chains, s.fLock, Step(s, p).threads[p])
  {
    hide InvOf;
    var b := Bucket(s.threads[p].id);
    ChainIn(s, b);
    WalkIn(s, b, 0);
  }

  lemma PassedOn(m: Memory, xs: seq<nat>, pos: nat, id: int)
    requires Passed(m, xs, pos, id) && (pos < |xs| ==> xs[pos] in m.foo && m.foo[xs[pos]].id != id)
    ensures Passed(m, xs, pos + 1, id)
  {
  }

  /** The find loop: what it has passed has other identifiers, and it meets null exactly at the end. */
  lemma FindWalk(s: Sys, p: nat)
    requires InvOf(s) == Firm && p < |s.threads| && s.threads[p].pc == FTest
    ensures Knows(s.mem, s.chains, s.fLock, Step(s, p).threads[p])
    ensures s.threads[p].fp != 0 ==> s.threads[p].fp in s.mem.foo
  {
    hide InvOf;
    var me, b := s.threads[p], Bucket(s.threads[p].id);
    assert |s.chains| == NHASH by { ChainIn(s, b); }
    var xs := s.chains[b];
    assert me.pos <= |xs| && me.fp == Elem(xs, me.pos) && Passed(s.mem, xs, me.pos, me.id) by { KnowsOf(s, p); }
    WalkIn(s, b, me.pos);
    if me.pos < |xs| && s.mem.foo[me.fp].id != me.id {
      WalkIn(s, b, me.pos + 1);
      PassedOn(s.mem, xs, me.pos, me.id);
    }
    hide Passed;
  }

  lemma KeepsLook(s: Sys, p: nat)
    requires InvOf(s) == Firm && p < |s.threads| && s.threads[p].pc in {FHead, FTest, RTest}
    ensures InvOf(Step(s, p)) == Firm
  {
    hide InvOf;
    var s' := Step(s, p);
    LookQuiet(s, p);
    assert Locks(s') by { hide Knows; HashTurn(s, s', p); }
    assert Knows(s'.mem, s'.chains, s'.fLock, s'.threads[p]) by {
      match s.threads[p].pc {
        case FHead => FindHead(s, p);
        case FTest => FindWalk(s, p);
        case _ => KnowsOf(s, p);
      }
    }
    hide Step, Knows;
    StillFree(s, s', p);
    Quiet(s, s', p);
  }

  lemma KeepsRecheck(s: Sys, p: nat)
    requires InvOf(s) == Firm && p < |s.threads| && s.threads[p].pc == RRecheck
    ensures InvOf(Step(s, p)) == Firm
  {
    hide InvOf;
    var me, s' := s.threads[p], Step(s, p);
    LookQuiet(s, p);
    assert Locks(s') by { hide Knows; HashTurn(s, s', p); }
    assert Knows(s'.mem, s'.chains, s'.fLock, s'.threads[p]) by {
      KnowsOf(s, p);
      OwnedIsLinked(s, p, me.fp);
    }
    hide Step, Knows;
    StillFree(s, s', p);
    Quiet(s, s', p);
  }

  lemma UnlinkHead(s: Sys, p: nat)
    requires InvOf(s) == Firm && p < |s.threads| && s.threads[p].pc == RHead
    ensures Knows(s.mem, s.chains, s.fLock, Step(s, p).threads[p])
    ensures Step(s, p).threads[p].tfp in s.mem.foo
  {
    hide InvOf;
    KnowsOf(s, p);
    var me := s.threads[p];
    var b := Bucket(s.mem.foo[me.fp].id);
    var xs := s.chains[b];
    WalkIn(s, b, 0);
    var k :| 0 <= k < |xs| && xs[k] == me.fp;
    if k > 0 { assert xs[1..][k - 1] == me.fp; }
  }

  /** The unlink loop: the object is ahead on the chain, so the walk never meets null, and it comes to the object in
      front of the one it looks for. */
  lemma UnlinkWalk(s: Sys, p: nat)
    requires InvOf(s) == Firm && p < |s.threads| && s.threads[p].pc == RWalk
    ensures Knows(s.mem, s.chains, s.fLock, Step(s, p).threads[p])
    ensures s.threads[p].tfp in s.mem.foo && Step(s, p).threads[p].tfp in s.mem.foo
  {
    hide InvOf;
    KnowsOf(s, p);
    var me := s.threads[p];
    var b := Bucket(s.mem.foo[me.fp].id);
    var xs := s.chains[b];
    WalkIn(s, b, me.pos);
    var k :| 0 <= k < |xs[me.pos + 1..]| && xs[me.pos + 1..][k] == me.fp;
    WalkIn(s, b, me.pos + 1);
    assert xs[me.pos + 1 + k] == me.fp;
    if k > 0 { assert xs[me.pos + 2..][k - 1] == me.fp; }
  }

  lemma KeepsUnlinkWalk(s: Sys, p: nat)
    requires InvOf(s) == Firm && p < |s.threads| && s.threads[p].pc in {RHead, RWalk}
    ensures InvOf(Step(s, p)) == Firm
  {
    hide InvOf, Knows;
    var s' := Step(s, p);
    LookQuiet(s, p);
    assert Locks(s') by { HashTurn(s, s', p); }
    assert Knows(s'.mem, s'.chains, s'.fLock, s'.threads[p]) by {
      if s.threads[p].pc == RHead { UnlinkHead(s, p); } else { UnlinkWalk(s, p); }
    }
    hide Step;
    StillFree(s, s', p);
    Quiet(s, s', p);
  }

  // ---- Counting ----

  /** Two threads with something to do with the same object: what the locks and the count exclude. */
  lemma CountsApart(s: Sys, p: nat, q: nat)
    requires InvOf(s) == Firm && p < |s.threads| && q < |s.threads| && p != q
    requires s.threads[p].pc in {HInc, FInc, RDec, RDec2} && s.threads[q].fp == s.threads[p].fp
    ensures !HoldsF(s.threads[q].pc) && Loose(s.threads[q]).None?
  {
    hide InvOf;
    KnowsOf(s, p);
    KnowsOf(s, q);
    var o := s.threads[p].fp;
    assert !HoldsF(s.threads[q].pc) by {
      Look(s);
      var mine, yours := HasF(s, o, p), HasF(s, o, q);
    }
    if s.threads[p].pc == FInc {
      ChainIn(s, Bucket(s.threads[p].id));
    } else if Loose(s.threads[q]).Some? {
      Alone(s, p, q, o);
    }
  }

  lemma CountKnows(s: Sys, s': Sys, p: nat, q: nat, c: int)
    requires InvOf(s) == Firm && p < |s.threads| && q < |s.threads| && p != q
             && s.threads[p].pc in {HInc, FInc, RDec, RDec2}
    requires s'.mem == SetCount(s.mem, s.threads[p].fp, c) && s'.chains == s.chains && s'.fLock == s.fLock
    ensures Knows(s'.mem, s'.chains, s'.fLock, s.threads[q])
  {
    hide InvOf;
    KnowsOf(s, q);
    var you := s.threads[q];
    if you.fp == s.threads[p].fp { CountsApart(s, p, q); }
    assert forall o :: o in s.mem.foo <==> o in s'.mem.foo;
    assert forall o :: OnChain(s'.mem, s'.chains, o) == OnChain(s.mem, s.chains, o);
    assert FooAt(s'.mem, you.fp).id == FooAt(s.mem, you.fp).id;
    if HoldsHash(you.pc) { PassedFrame(s.mem, s'.mem, ChainFor(s.chains, you.id), you.pos, you.id); }
  }

  lemma PassedFrame(m: Memory, m': Memory, xs: seq<nat>, pos: nat, id: int)
    requires forall o :: o in m.foo && o in xs ==> o in m'.foo && m'.foo[o].id == m.foo[o].id
    ensures Passed(m, xs, pos, id) ==> Passed(m', xs, pos, id)
  {
  }

  lemma CountCounts(s: Sys, s': Sys, p: nat, d: int)
    requires Counts(s) && p < |s.threads| && s.threads[p].fp in s.mem.foo
    requires var fp := s.threads[p].fp; s'.mem == SetCount(s.mem, fp, s.mem.foo[fp].count + d)
    requires |s'.threads| == |s.threads| && s'.threads == s.threads[p := s'.threads[p]] && s.threads[p].fp != 0
    requires forall o: nat {:trigger Owed(s'.threads[p], o)} ::
               Owed(s'.threads[p], o) == Owed(s.threads[p], o) + if o == s.threads[p].fp then d else 0
    requires s.mem.foo[s.threads[p].fp].count + d >= 1
    ensures Counts(s')
  {
    forall o: nat ensures Counted(s', o) {
      assert Counted(s, o);
      RefsPut(s.threads, p, s'.threads[p], o);
      assert Owed(s'.threads[p], o) == Owed(s.threads[p], o) + if o == s.threads[p].fp then d else 0;
    }
  }

  lemma CountIs(s: Sys, p: nat)
    requires p < |s.threads| && s.threads[p].pc in {HInc, FInc, RDec, RDec2}
    ensures Step(s, p) == Count(s, p, if s.threads[p].pc in {HInc, FInc} then 1 else -1, After(s.threads[p].pc))
  {
    hide Count;
  }

  lemma KeepsCount(s: Sys, p: nat)
    requires InvOf(s) == Firm && p < |s.threads| && s.threads[p].pc in {HInc, FInc, RDec, RDec2}
    ensures InvOf(Step(s, p)) == Firm
  {
    hide InvOf, Knows, Step;
    var me, s' := s.threads[p], Step(s, p);
    var d := if me.pc in {HInc, FInc} then 1 else -1;
    CountIs(s, p);
    CountedStep(s, s', p, d);
    assert Locks(s') by { HashTurn(s, s', p); }
    assert s'.mem == SetCount(s.mem, me.fp, s.mem.foo[me.fp].count + d) && s'.chains == s.chains && s'.fLock == s.fLock;
    CountMine(s, p);
    forall q | 0 <= q < |s'.threads| ensures Knows(s'.mem, s'.chains, s'.fLock, s'.threads[q]) {
      if q != p { CountKnows(s, s', p, q, s.mem.foo[me.fp].count + d); }
    }
    Together(s');
  }

  lemma CountMine(s: Sys, p: nat)
    requires InvOf(s) == Firm && p < |s.threads| && s.threads[p].pc in {HInc, FInc, RDec, RDec2}
    ensures var s' := Step(s, p);
            Knows(s'.mem, s'.chains, s'.fLock, s'.threads[p])
  {
    hide InvOf, Step;
    CountIs(s, p);
    KnowsOf(s, p);
    if s.threads[p].pc == FInc { ChainIn(s, Bucket(s.threads[p].id)); }
  }

  lemma CountedStep(s: Sys, s': Sys, p: nat, d: int)
    requires InvOf(s) == Firm && p < |s.threads| && s.threads[p].pc in {HInc, FInc, RDec, RDec2} && s' == Step(s, p)
    requires d == if s.threads[p].pc in {HInc, FInc} then 1 else -1
    ensures Counts(s') && Chained(s'.mem, s'.chains) && AllPlaced(s') && s.threads[p].fp in s.mem.foo
  {
    hide InvOf, Step;
    CountIs(s, p);
    KnowsOf(s, p);
    var me := s.threads[p];
    assert me.fp in s.mem.foo && me.fp != 0 by {
      if me.pc == FInc { ChainIn(s, Bucket(me.id)); WalkIn(s, Bucket(me.id), me.pos); }
    }
    assert Counts(s') by {
      assert Counts(s) by { Look(s); }
      assert Counted(s, me.fp);
      CountCounts(s, s', p, d);
    }
    SameChains(s, s', p);
  }

  /** Changing a count changes no chain. */
  lemma SameChains(s: Sys, s': Sys, p: nat)
    requires InvOf(s) == Firm && p < |s.threads| && s.threads[p].pc in {HInc, FInc, RDec, RDec2} && s' == Step(s, p)
    ensures Chained(s'.mem, s'.chains) && AllPlaced(s')
  {
    hide InvOf, Step;
    CountIs(s, p);
    forall o ensures OnChain(s'.mem, s'.chains, o) == OnChain(s.mem, s.chains, o) {}
    assert Chained(s.mem, s.chains) && AllPlaced(s) by { Look(s); }
    ChainedFrame(s.mem, s'.mem, s.chains);
    PlacedKept(s, s', p);
  }

  // ---- Linking and unlinking ----

  /** The new object is given its next pointer: nobody else can see it. */
  lemma KeepsNext(s: Sys, p: nat)
    requires InvOf(s) == Firm && p < |s.threads| && s.threads[p].pc == ANext
    ensures InvOf(Step(s, p)) == Firm
  {
    var me, s' := s.threads[p], Step(s, p);
    KnowsOf(s, p);
    HashTurn(s, s', p);
    forall o ensures OnChain(s'.mem, s'.chains, o) == OnChain(s.mem, s.chains, o) {}
    assert Chained(s'.mem, s'.chains) && AllPlaced(s') by {
      Look(s);
      ChainedFrame(s.mem, s'.mem, s.chains);
      PlacedKept(s, s', p);
    }
    SameCounts(s, s', p);
    forall q | 0 <= q < |s'.threads| ensures Knows(s'.mem, s'.chains, s'.fLock, s'.threads[q]) {
      if q != p { NextKnows(s, s', p, q); } else { assert |s.mem.fh| == NHASH by { Look(s); } }
    }
  }

  lemma NextKnows(s: Sys, s': Sys, p: nat, q: nat)
    requires InvOf(s) == Firm && p < |s.threads| && q < |s.threads| && p != q && s.threads[p].pc == ANext
             && s' == Step(s, p)
    ensures Knows(s'.mem, s'.chains, s'.fLock, s.threads[q])
  {
    hide InvOf;
    KnowsOf(s, p);
    KnowsOf(s, q);
    var you := s.threads[q];
    if you.pc == AHead && you.fp == s.threads[p].fp { Alone(s, p, q, you.fp); }
    assert forall o :: OnChain(s'.mem, s'.chains, o) == OnChain(s.mem, s.chains, o);
    PassedFrame(s.mem, s'.mem, ChainFor(s.chains, you.id), you.pos, you.id);
  }

  lemma SameCounts(s: Sys, s': Sys, p: nat)
    requires InvOf(s) == Firm && Moved(s, s', p)
    requires forall o :: o in s.mem.foo <==> o in s'.mem.foo
    requires forall o :: o in s.mem.foo ==> s'.mem.foo[o].count == s.mem.foo[o].count
    requires forall o: nat {:trigger Owed(s'.threads[p], o)} :: Owed(s'.threads[p], o) == Owed(s.threads[p], o)
    ensures Counts(s')
  {
    hide InvOf;
    assert Counts(s) by { Look(s); }
    assert s'.threads == s.threads[p := s'.threads[p]];
    forall o: nat ensures Counted(s', o) {
      assert Counted(s, o);
      RefsPut(s.threads, p, s'.threads[p], o);
      assert Owed(s'.threads[p], o) == Owed(s.threads[p], o);
    }
  }

  /** While p has the table locked, nobody else is walking or linking. */
  lemma OnlyHash(s: Sys, p: nat, q: nat)
    requires InvOf(s) == Firm && p < |s.threads| && q < |s.threads| && p != q && HoldsHash(s.threads[p].pc)
    ensures !HoldsHash(s.threads[q].pc)
  {
    hide InvOf;
    Look(s);
    var mine, yours := HasHash(s, p), HasHash(s, q);
  }

  /** A thread without the table lock does not care about the chains, except that its loose object is on none. */
  lemma OutsideKnows(s: Sys, s': Sys, q: nat)
    requires InvOf(s) == Firm && q < |s.threads| && !HoldsHash(s.threads[q].pc) && s'.fLock == s.fLock
    requires forall o :: o in s.mem.foo <==> o in s'.mem.foo
    requires forall o :: o in s.mem.foo ==> s'.mem.foo[o] == s.mem.foo[o].(next := s'.mem.foo[o].next)
    requires Loose(s.threads[q]).Some? && !OnChain(s.mem, s.chains, s.threads[q].fp) ==>
               !OnChain(s'.mem, s'.chains, s.threads[q].fp)
    ensures Knows(s'.mem, s'.chains, s'.fLock, s.threads[q])
  {
    hide InvOf;
    KnowsOf(s, q);
  }

  lemma LinkOthers(s: Sys, s': Sys, p: nat, q: nat)
    requires InvOf(s) == Firm && p < |s.threads| && q < |s.threads| && p != q && s.threads[p].pc == AHead
             && s' == Step(s, p)
    ensures Knows(s'.mem, s'.chains, s'.fLock, s.threads[q])
  {
    hide InvOf;
    KnowsOf(s, p);
    KnowsOf(s, q);
    OnlyHash(s, p, q);
    var o, you := s.threads[p].fp, s.threads[q];
    var b := Bucket(s.threads[p].id);
    ChainIn(s, b);
    if Loose(you).Some? {
      if you.fp == o { Alone(s, p, q, o); }
      assert forall x :: x in [o] + s.chains[b] <==> x == o || x in s.chains[b];
    }
    OutsideKnows(s, s', q);
  }

  /** The new object becomes the first of its chain. */
  lemma KeepsLink(s: Sys, p: nat)
    requires InvOf(s) == Firm && p < |s.threads| && s.threads[p].pc == AHead
    ensures InvOf(Step(s, p)) == Firm && |s.chains| == NHASH
    ensures TableOf(Step(s, p).mem, Step(s, p).chains) ==
            Alloc(TableOf(s.mem, s.chains), s.threads[p].fp, s.threads[p].id)
  {
    var me, s' := s.threads[p], Step(s, p);
    KnowsOf(s, p);
    HashTurn(s, s', p);
    assert Chained(s.mem, s.chains) by { Look(s); }
    PushChained(s.mem, s.chains, me.fp);
    PushIsAlloc(s.mem, s.chains, me.fp);
    SameCounts(s, s', p);
    forall q | 0 <= q < |s'.threads| ensures Knows(s'.mem, s'.chains, s'.fLock, s'.threads[q]) {
      if q != p { LinkOthers(s, s', p, q); }
    }
    LinkPlaced(s, s', p);
  }

  lemma LinkPlaced(s: Sys, s': Sys, p: nat)
    requires InvOf(s) == Firm && p < |s.threads| && s.threads[p].pc == AHead && s' == Step(s, p)
    ensures AllPlaced(s')
  {
    hide InvOf;
    KnowsOf(s, p);
    assert AllPlaced(s) && |s.chains| == NHASH by { Look(s); }
    var fp, b := s.threads[p].fp, Bucket(s.threads[p].id);
    assert forall x :: x in [fp] + s.chains[b] <==> x == fp || x in s.chains[b];
    forall o | o in s'.mem.foo ensures Placed(s', o) {
      assert Placed(s, o);
      if o != fp && !OnChain(s.mem, s.chains, o) {
        var q :| 0 <= q < |s.threads| && Loose(s.threads[q]) == Some(o);
        assert Loose(s'.threads[q]) == Some(o);
      }
    }
  }

  /** What the unlinking write is: the pointer in front of the object skips it. */
  lemma UnlinkIs(s: Sys, p: nat) returns (b: nat, i: nat)
    requires InvOf(s) == Firm && p < |s.threads| && s.threads[p].pc in {RSetHead, RSetNext}
    ensures b < NHASH == |s.chains| && i < |s.chains[b]| && s.chains[b][i] == s.threads[p].fp
    ensures s.threads[p].fp in s.mem.foo && Bucket(s.mem.foo[s.threads[p].fp].id) == b
            && s.mem.foo[s.threads[p].fp].count == 1
    ensures Step(s, p).mem == Skip(s.mem, b, s.chains[b], i)
            && Step(s, p).chains == Removed(s.chains, b, s.threads[p].fp)
    ensures Step(s, p).threads == s.threads[p := s.threads[p].(pc := RUnlockHash)]
    ensures Step(s, p).hashLock == s.hashLock && Step(s, p).fLock == s.fLock
  {
    hide InvOf;
    KnowsOf(s, p);
    var me := s.threads[p];
    b := Bucket(s.mem.foo[me.fp].id);
    ChainIn(s, b);
    i := if me.pc == RSetHead then 0 else me.pos + 1;
  }

  lemma UnlinkOthers(s: Sys, s': Sys, p: nat, q: nat, b: nat, i: nat)
    requires InvOf(s) == Firm && p < |s.threads| && q < |s.threads| && p != q && s.threads[p].pc in {RSetHead, RSetNext}
    requires b < NHASH == |s.chains| && i < |s.chains[b]| && s'.fLock == s.fLock
    requires s'.mem == Skip(s.mem, b, s.chains[b], i) && s'.chains == Removed(s.chains, b, s.chains[b][i])
    ensures Knows(s'.mem, s'.chains, s'.fLock, s.threads[q])
  {
    hide InvOf;
    OnlyHash(s, p, q);
    KnowsOf(s, q);
    var you := s.threads[q];
    SkipObjs(s.mem, b, s.chains[b], i);
    if Loose(you).Some? {
      assert Chained(s.mem, s.chains) by { Look(s); }
      SkipOnChain(s.mem, s.chains, b, i, you.fp);
    }
    OutsideKnows(s, s', q);
  }

  lemma UnlinkChains(s: Sys, p: nat)
    requires InvOf(s) == Firm && p < |s.threads| && s.threads[p].pc in {RSetHead, RSetNext}
    ensures var s' := Step(s, p);
            && Chained(s'.mem, s'.chains)
            && TableOf(s'.mem, s'.chains) == Rele(TableOf(s.mem, s.chains), s.threads[p].fp)
            && !OnChain(s'.mem, s'.chains, s.threads[p].fp)
  {
    hide InvOf, Step;
    var b, i := UnlinkIs(s, p);
    assert Chained(s.mem, s.chains) by { Look(s); }
    SkipChained(s.mem, s.chains, b, i);
    SkipIsRele(s.mem, s.chains, b, i);
  }

  lemma UnlinkMine(s: Sys, p: nat)
    requires InvOf(s) == Firm && p < |s.threads| && s.threads[p].pc in {RSetHead, RSetNext}
    ensures var s' := Step(s, p);
            Knows(s'.mem, s'.chains, s'.fLock, s'.threads[p])
  {
    hide InvOf, Step, OnChain;
    var b, i := UnlinkIs(s, p);
    UnlinkChains(s, p);
    KnowsOf(s, p);
    SkipObjs(s.mem, b, s.chains[b], i);
  }

  lemma UnlinkKnows(s: Sys, p: nat)
    requires InvOf(s) == Firm && p < |s.threads| && s.threads[p].pc in {RSetHead, RSetNext}
    ensures AllKnow(Step(s, p)) && AllPlaced(Step(s, p))
  {
    hide InvOf, Step, Knows, Skip, Removed, Placed;
    var s' := Step(s, p);
    var b, i := UnlinkIs(s, p);
    forall q | 0 <= q < |s'.threads| ensures Knows(s'.mem, s'.chains, s'.fLock, s'.threads[q]) {
      if q != p { UnlinkOthers(s, s', p, q, b, i); } else { UnlinkMine(s, p); }
    }
    UnlinkPlaced(s, s', p, b, i);
  }

  /** The object leaves its chain; in the table it is gone with its last reference. */
  lemma KeepsUnlink(s: Sys, p: nat)
    requires InvOf(s) == Firm && p < |s.threads| && s.threads[p].pc in {RSetHead, RSetNext}
    ensures InvOf(Step(s, p)) == Firm
  {
    hide InvOf, Step, Knows, Placed, Chain, OnChain, TableOf, Rele, Skip, Removed, Counted, AllKnow, AllPlaced, Counts;
    var s' := Step(s, p);
    assert Chained(s'.mem, s'.chains) by { UnlinkChains(s, p); }
    assert Locks(s') by {
      var b, i := UnlinkIs(s, p);
      HashTurn(s, s', p);
    }
    UnlinkKnows(s, p);
    UnlinkCounts(s, p);
    Together(s');
  }

  lemma UnlinkCounts(s: Sys, p: nat)
    requires InvOf(s) == Firm && p < |s.threads| && s.threads[p].pc in {RSetHead, RSetNext}
    ensures Counts(Step(s, p))
  {
    hide InvOf, Step, Removed, Bucket, Counts;
    var b, i := UnlinkIs(s, p);
    SkipObjs(s.mem, b, s.chains[b], i);
    hide Skip;
    StillOwed(s.threads[p], s.threads[p].(pc := RUnlockHash));
    hide Owed;
    SameCounts(s, Step(s, p), p);
  }

  lemma UnlinkPlaced(s: Sys, s': Sys, p: nat, b: nat, i: nat)
    requires InvOf(s) == Firm && p < |s.threads| && s.threads[p].pc in {RSetHead, RSetNext}
    requires b < NHASH == |s.chains| && i < |s.chains[b]| && s.chains[b][i] == s.threads[p].fp
             && s'.threads == s.threads[p := s.threads[p].(pc := RUnlockHash)]
    requires s'.mem == Skip(s.mem, b, s.chains[b], i) && s'.chains == Removed(s.chains, b, s.chains[b][i])
    ensures AllPlaced(s')
  {
    hide InvOf, Step, Skip, Removed;
    SkipObjs(s.mem, b, s.chains[b], i);
    forall o | o in s'.mem.foo ensures Placed(s', o) { UnlinkPlacedOne(s, s', p, b, i, o); }
  }

  lemma UnlinkPlacedOne(s: Sys, s': Sys, p: nat, b: nat, i: nat, o: nat)
    requires InvOf(s) == Firm && p < |s.threads| && s.threads[p].pc in {RSetHead, RSetNext}
    requires b < NHASH == |s.chains| && i < |s.chains[b]| && s.chains[b][i] == s.threads[p].fp
    requires Moved(s, s', p) && Loose(s'.threads[p]) == Some(s.threads[p].fp)
    requires s'.mem == Skip(s.mem, b, s.chains[b], i) && s'.chains == Removed(s.chains, b, s.chains[b][i])
    requires o in s.mem.foo
    ensures Placed(s', o)
  {
    hide InvOf;
    assert Placed(s, o) && Chained(s.mem, s.chains) by { Look(s); assert Placed(s, o); }
    SkipOnChain(s.mem, s.chains, b, i, o);
    if o == s.threads[p].fp {
      assert Loose(s'.threads[p]) == Some(o);
    } else if !OnChain(s.mem, s.chains, o) {
      var q :| 0 <= q < |s.threads| && Loose(s.threads[q]) == Some(o);
      assert Loose(s'.threads[q]) == Some(o);
    }
  }

  // ---- Freeing and allocating ----

  /** At the moment of the free, no other thread has or can reach anything of the object: no reference, no lock, no
      pointer from a walk. */
  lemma FreedByLast(s: Sys, p: nat, q: nat)
    requires InvOf(s) == Firm && p < |s.threads| && q < |s.threads| && p != q && s.threads[p].pc == RFree
    ensures var o := s.threads[p].fp;
            && o in s.mem.foo && s.mem.foo[o].count == 1 == Refs(s.threads, o)
            && Owed(s.threads[q], o) == 0 && o !in s.fLock && !OnChain(s.mem, s.chains, o)
            && (s.threads[q].pc in {FTest, FLock, FInc, HLock, HInc} ==> s.threads[q].fp != o)
            && (HoldsF(s.threads[q].pc) ==> s.threads[q].fp != o)
            && (s.threads[q].pc in {RWalk, RSetNext} ==> s.threads[q].tfp != o)
  {
    hide InvOf;
    KnowsOf(s, p);
    KnowsOf(s, q);
    var o, you := s.threads[p].fp, s.threads[q];
    Alone(s, q, p, o);
    if you.pc in {RWalk, RSetNext} { ChainIn(s, Bucket(FooAt(s.mem, you.fp).id)); }
    assert Counted(s, o) && (HasF(s, o, q) || !HasF(s, o, q)) by { Look(s); }
    assert HoldsF(you.pc) && you.fp == o ==> o in s.fLock by {
      Look(s);
      var yours := HasF(s, o, q);
    }
    if you.pc in {FTest, FLock, FInc} {
      ChainIn(s, Bucket(you.id));
      WalkIn(s, Bucket(you.id), you.pos);
    }
  }

  lemma FreeKnows(s: Sys, s': Sys, p: nat, q: nat)
    requires InvOf(s) == Firm && p < |s.threads| && q < |s.threads| && p != q && s.threads[p].pc == RFree
             && s' == Step(s, p)
    ensures Knows(s'.mem, s'.chains, s'.fLock, s.threads[q])
  {
    hide InvOf;
    FreedByLast(s, p, q);
    KnowsOf(s, q);
    var o, you := s.threads[p].fp, s.threads[q];
    assert forall x :: x != o ==> OnChain(s'.mem, s'.chains, x) == OnChain(s.mem, s.chains, x);
    assert FooAt(s'.mem, you.fp) == FooAt(s.mem, you.fp) || you.fp == o;
    if you.pc in {FTest, FLock, FInc} {
      ChainIn(s, Bucket(you.id));
      PassedFrame(s.mem, s'.mem, ChainFor(s.chains, you.id), you.pos, you.id);
    }
  }

  lemma KeepsFree(s: Sys, p: nat)
    requires InvOf(s) == Firm && p < |s.threads| && s.threads[p].pc == RFree
    ensures InvOf(Step(s, p)) == Firm
    ensures TableOf(Step(s, p).mem, Step(s, p).chains) == TableOf(s.mem, s.chains)
  {
    var me, s' := s.threads[p], Step(s, p);
    KnowsOf(s, p);
    HashTurn(s, s', p);
    assert Chained(s.mem, s.chains) by { Look(s); }
    ChainedFrame(s.mem, s'.mem, s.chains);
    TableFrame(s.mem, s'.mem, s.chains);
    FreeCounts(s, s', p);
    forall q | 0 <= q < |s'.threads| ensures Knows(s'.mem, s'.chains, s'.fLock, s'.threads[q]) {
      if q != p { FreeKnows(s, s', p, q); }
    }
    FreePlaced(s, s', p);
  }

  lemma FreeCounts(s: Sys, s': Sys, p: nat)
    requires InvOf(s) == Firm && p < |s.threads| && s.threads[p].pc == RFree && s' == Step(s, p)
    ensures Counts(s')
  {
    hide InvOf;
    KnowsOf(s, p);
    assert Counts(s) by { Look(s); }
    forall o: nat ensures Counted(s', o) {
      assert Counted(s, o);
      RefsPut(s.threads, p, s'.threads[p], o);
    }
  }

  lemma FreePlaced(s: Sys, s': Sys, p: nat)
    requires InvOf(s) == Firm && p < |s.threads| && s.threads[p].pc == RFree && s' == Step(s, p)
    ensures AllPlaced(s')
  {
    hide InvOf;
    assert AllPlaced(s) by { Look(s); }
    forall o | o in s'.mem.foo ensures Placed(s', o) {
      assert Placed(s, o);
      if !OnChain(s.mem, s.chains, o) {
        var q :| 0 <= q < |s.threads| && Loose(s.threads[q]) == Some(o);
        assert Loose(s'.threads[q]) == Some(o);
      }
    }
  }

  // ---- Calls ----

  lemma KeepsStartAlloc(s: Sys, p: nat, o: nat, id: int)
    requires InvOf(s) == Firm && p < |s.threads| && s.threads[p].pc == Idle && o != 0 && o !in s.mem.foo
    ensures InvOf(StartAlloc(s, p, o, id)) == Firm
    ensures TableOf(StartAlloc(s, p, o, id).mem, s.chains) == TableOf(s.mem, s.chains)
  {
    var s' := StartAlloc(s, p, o, id);
    HashTurn(s, s', p);
    NewOnNoChain(s, o, id);
    forall x ensures x != o ==> OnChain(s'.mem, s'.chains, x) == OnChain(s.mem, s.chains, x) {}
    assert Chained(s.mem, s.chains) by { Look(s); }
    ChainedFrame(s.mem, s'.mem, s.chains);
    TableFrame(s.mem, s'.mem, s.chains);
    AllocCounts(s, s', p, o, id);
    forall q | 0 <= q < |s'.threads| ensures Knows(s'.mem, s'.chains, s'.fLock, s'.threads[q]) {
      if q != p { AllocKnows(s, s', p, o, id, q); }
    }
    AllocPlaced(s, s', p, o, id);
  }

  lemma NewOnNoChain(s: Sys, o: nat, id: int)
    requires InvOf(s) == Firm && o !in s.mem.foo
    ensures |s.chains| == NHASH && o !in s.chains[Bucket(id)]
  {
    hide InvOf;
    ChainIn(s, Bucket(id));
  }

  lemma AllocCounts(s: Sys, s': Sys, p: nat, o: nat, id: int)
    requires InvOf(s) == Firm && p < |s.threads| && s.threads[p].pc == Idle && o != 0 && o !in s.mem.foo
    requires s' == StartAlloc(s, p, o, id)
    ensures Counts(s')
  {
    hide InvOf;
    assert Counts(s) by { Look(s); }
    forall x: nat ensures Counted(s', x) {
      assert Counted(s, x);
      RefsPut(s.threads, p, s'.threads[p], x);
    }
  }

  lemma AllocKnows(s: Sys, s': Sys, p: nat, o: nat, id: int, q: nat)
    requires InvOf(s) == Firm && p < |s.threads| && s.threads[p].pc == Idle && o != 0 && o !in s.mem.foo
    requires s' == StartAlloc(s, p, o, id) && q < |s.threads| && q != p
    ensures Knows(s'.mem, s'.chains, s'.fLock, s.threads[q])
  {
    hide InvOf;
    KnowsOf(s, q);
    var you := s.threads[q];
    forall x ensures x != o ==> OnChain(s'.mem, s'.chains, x) == OnChain(s.mem, s.chains, x) {}
    ChainIn(s, Bucket(you.id));
    PassedFrame(s.mem, s'.mem, ChainFor(s.chains, you.id), you.pos, you.id);
    assert you.fp != o ==> FooAt(s'.mem, you.fp) == FooAt(s.mem, you.fp);
  }

  lemma AllocPlaced(s: Sys, s': Sys, p: nat, o: nat, id: int)
    requires InvOf(s) == Firm && p < |s.threads| && s.threads[p].pc == Idle && o != 0 && o !in s.mem.foo
    requires s' == StartAlloc(s, p, o, id)
    ensures AllPlaced(s')
  {
    hide InvOf;
    assert AllPlaced(s) by { Look(s); }
    forall x | x in s'.mem.foo ensures Placed(s', x) {
      if x == o {
        assert Loose(s'.threads[p]) == Some(o);
      } else {
        assert Placed(s, x);
        if !OnChain(s.mem, s.chains, x) {
          var q :| 0 <= q < |s.threads| && Loose(s.threads[q]) == Some(x);
          assert Loose(s'.threads[q]) == Some(x);
        }
      }
    }
  }

  lemma StartQuiet(s: Sys, s': Sys, p: nat, o: nat, id: int)
    requires p < |s.threads| && s.threads[p].pc == Idle
    requires s' == StartFind(s, p, id)
             || (o in s.threads[p].refs && o != 0 && (s' == StartHold(s, p, o) || s' == StartRele(s, p, o)))
    ensures QuietStep(s, s', p) && s'.fLock == s.fLock && s'.hashLock == s.hashLock
    ensures !HoldsF(s'.threads[p].pc) && !HoldsHash(s'.threads[p].pc)
  {
    var me := s.threads[p];
    if s' == StartRele(s, p, o) {
      assert s'.threads[p] == me.(pc := RLock, fp := o, refs := me.refs - multiset{o});
    }
  }

  lemma StartKnows(s: Sys, s': Sys, p: nat, o: nat, id: int)
    requires InvOf(s) == Firm && p < |s.threads| && s.threads[p].pc == Idle
    requires s' == StartFind(s, p, id)
             || (o in s.threads[p].refs && (s' == StartHold(s, p, o) || s' == StartRele(s, p, o)))
    ensures Knows(s'.mem, s'.chains, s'.fLock, s'.threads[p]) && (o in s.threads[p].refs ==> o != 0)
  {
    hide InvOf;
    if o in s.threads[p].refs { OwnedExists(s, p, o); }
  }

  /** The calls that begin with a reference of the caller's, and the find. */
  lemma KeepsStart(s: Sys, s': Sys, p: nat)
    requires InvOf(s) == Firm && p < |s.threads| && s.threads[p].pc == Idle
    requires (exists id: int :: s' == StartFind(s, p, id))
          || (exists o: nat :: o in s.threads[p].refs && (s' == StartHold(s, p, o) || s' == StartRele(s, p, o)))
    ensures InvOf(s') == Firm && s'.mem == s.mem && s'.chains == s.chains
  {
    hide InvOf, Knows, StartFind, StartHold, StartRele;
    var o: nat, id: int :| s' == StartFind(s, p, id)
                        || (o in s.threads[p].refs && (s' == StartHold(s, p, o) || s' == StartRele(s, p, o)));
    StartKnows(s, s', p, o, id);
    StartQuiet(s, s', p, o, id);
    HashTurn(s, s', p);
    StillFree(s, s', p);
    Quiet(s, s', p);
  }

  lemma KeepsGive(s: Sys, p: nat, q: nat, o: nat)
    requires InvOf(s) == Firm && p < |s.threads| && q < |s.threads| && s.threads[p].pc == Idle && o in s.threads[p].refs
    ensures InvOf(Give(s, p, q, o)) == Firm
  {
    var s1 := Set(s, p, s.threads[p].(refs := s.threads[p].refs - multiset{o}));
    var s' := Give(s, p, q, o);
    OwnedExists(s, p, o);
    GiveLocks(s, p, q, o);
    assert Counts(s') by {
      assert Counts(s) by { Look(s); }
      forall x: nat ensures Counted(s', x) {
        assert Counted(s, x);
        RefsPut(s.threads, p, s1.threads[p], x);
        RefsPut(s1.threads, q, s'.threads[q], x);
      }
    }
    forall r | 0 <= r < |s'.threads| ensures Knows(s'.mem, s'.chains, s'.fLock, s'.threads[r]) { KnowsOf(s, r); }
    GivePlaced(s, p, q, o);
    assert Chained(s'.mem, s'.chains) by { Look(s); }
  }

  lemma GiveLocks(s: Sys, p: nat, q: nat, o: nat)
    requires InvOf(s) == Firm && p < |s.threads| && q < |s.threads|
    ensures Locks(Give(s, p, q, o))
  {
    hide InvOf;
    var s' := Give(s, p, q, o);
    Look(s);
    forall r: nat
      ensures HasHash(s', r) <==> r < |s'.threads| && HoldsHash(s'.threads[r].pc)
    {
      var was := HasHash(s, r);
    }
    forall x: nat, r: nat
      ensures HasF(s', x, r) <==> r < |s'.threads| && HoldsF(s'.threads[r].pc) && s'.threads[r].fp == x
    {
      var was := HasF(s, x, r);
    }
  }

  lemma GivePlaced(s: Sys, p: nat, q: nat, o: nat)
    requires InvOf(s) == Firm && p < |s.threads| && q < |s.threads|
    ensures AllPlaced(Give(s, p, q, o))
  {
    hide InvOf;
    var s' := Give(s, p, q, o);
    assert AllPlaced(s) by { Look(s); }
    forall x | x in s'.mem.foo ensures Placed(s', x) {
      assert Placed(s, x);
      if !OnChain(s.mem, s.chains, x) {
        var r :| 0 <= r < |s.threads| && Loose(s.threads[r]) == Some(x);
        assert Loose(s'.threads[r]) == Some(x);
      }
    }
  }

  // ---- What a step does to the table ----

  ghost function TableIn(s: Sys): Table { TableOf(s.mem, s.chains) }

  /** One step of each call is the whole call, as the one-lock version would make it at that moment, with the same
      result; all its other steps leave the table alone. */
  ghost predicate Refines(s: Sys, s': Sys, p: nat)
    requires p < |s.threads|
  {
    var me := s.threads[p];
    |s.chains| == NHASH &&
    match me.pc
    case AHead => me.fp != 0 && me.fp !in TableIn(s).objs && TableIn(s') == Alloc(TableIn(s), me.fp, me.id)
    case HInc => InTable(TableIn(s), me.fp) && TableIn(s') == Hold(TableIn(s), me.fp)
    case FInc => (TableIn(s'), me.fp) == Find(TableIn(s), me.id)
    case FTest => TableIn(s') == TableIn(s) && (me.fp == 0 ==> Find(TableIn(s), me.id) == (TableIn(s), 0))
    case RDec | RDec2 => InTable(TableIn(s), me.fp) && TableIn(s') == Rele(TableIn(s), me.fp)
    case RSetHead | RSetNext => InTable(TableIn(s), me.fp) && TableIn(s') == Rele(TableIn(s), me.fp)
    case _ => TableIn(s') == TableIn(s)
  }

  lemma HoldRefines(s: Sys, p: nat)
    requires InvOf(s) == Firm && p < |s.threads| && s.threads[p].pc in {HInc, FInc}
    ensures InTable(TableIn(s), s.threads[p].fp) && TableIn(Step(s, p)) == Hold(TableIn(s), s.threads[p].fp)
  {
    hide InvOf;
    CountedOnChain(s, p);
    CountChanges(s.mem, s.chains, s.threads[p].fp, s.mem.foo[s.threads[p].fp].count + 1);
  }

  lemma ReleRefines(s: Sys, p: nat)
    requires InvOf(s) == Firm && p < |s.threads| && s.threads[p].pc in {RDec, RDec2}
    ensures InTable(TableIn(s), s.threads[p].fp) && TableIn(Step(s, p)) == Rele(TableIn(s), s.threads[p].fp)
  {
    hide InvOf;
    CountedOnChain(s, p);
    CountChanges(s.mem, s.chains, s.threads[p].fp, s.mem.foo[s.threads[p].fp].count - 1);
  }

  lemma CountedOnChain(s: Sys, p: nat)
    requires InvOf(s) == Firm && p < |s.threads| && s.threads[p].pc in {HInc, RDec, RDec2, FInc}
    ensures var fp := s.threads[p].fp;
            OnChain(s.mem, s.chains, fp) && (s.threads[p].pc in {RDec, RDec2} ==> s.mem.foo[fp].count != 1)
  {
    hide InvOf;
    KnowsOf(s, p);
    if s.threads[p].pc == FInc { ChainIn(s, Bucket(s.threads[p].id)); } else { OwnedIsLinked(s, p, s.threads[p].fp); }
  }

  lemma FindOneRefines(s: Sys, p: nat)
    requires InvOf(s) == Firm && p < |s.threads| && s.threads[p].pc == FInc
    ensures |s.chains| == NHASH && (TableIn(Step(s, p)), s.threads[p].fp) == Find(TableIn(s), s.threads[p].id)
  {
    hide InvOf;
    HoldRefines(s, p);
    FindRefines(s, p);
    assert s.threads[p].fp != 0 by {
      KnowsOf(s, p);
      ChainIn(s, Bucket(s.threads[p].id));
    }
  }

  lemma FindRefines(s: Sys, p: nat)
    requires InvOf(s) == Firm && p < |s.threads|
    requires s.threads[p].pc == FInc || (s.threads[p].pc == FTest && s.threads[p].fp == 0)
    ensures |s.chains| == NHASH
            && Lookup(TableIn(s).objs, s.chains[Bucket(s.threads[p].id)], s.threads[p].id) == s.threads[p].fp
  {
    hide InvOf;
    KnowsOf(s, p);
    var me := s.threads[p];
    var b := Bucket(me.id);
    ChainIn(s, b);
    var xs, objs := s.chains[b], TableIn(s).objs;
    WalkIn(s, b, me.pos);
    forall j | 0 <= j < me.pos && j < |xs|
      ensures xs[j] in objs && objs[xs[j]].id != me.id
    {
      assert OnChain(s.mem, s.chains, xs[j]);
    }
    if me.pc == FInc {
      assert OnChain(s.mem, s.chains, me.fp);
      LookupHits(objs, xs, me.id, me.pos);
    } else {
      LookupMisses(objs, xs, me.id);
    }
  }

  lemma StepKeeps(s: Sys, p: nat)
    requires InvOf(s) == Firm && p < |s.threads| && Enabled(s, p)
    ensures InvOf(Step(s, p)) == Firm
  {
    hide InvOf;
    match s.threads[p].pc
    case ALockHash | FLockHash | RLockHash | AUnlockHash | FUnlockHash | RUnlockHash2 | RUnlockHash =>
      KeepsHashLock(s, p);
    case ALockF | HLock | FLock | RLock | RLockF => KeepsTakeF(s, p);
    case AUnlockF | HUnlock | FUnlock | RUnlock | RUnlockFirst | RUnlockF2 | RUnlockF => KeepsDropF(s, p);
    case ANext => KeepsNext(s, p);
    case AHead => KeepsLink(s, p);
    case HInc | FInc | RDec | RDec2 => KeepsCount(s, p);
    case FHead | FTest | RTest => KeepsLook(s, p);
    case RRecheck => KeepsRecheck(s, p);
    case RHead | RWalk => KeepsUnlinkWalk(s, p);
    case RSetHead | RSetNext => KeepsUnlink(s, p);
    case RFree => KeepsFree(s, p);
  }

  lemma StepRefines(s: Sys, p: nat)
    requires InvOf(s) == Firm && p < |s.threads| && Enabled(s, p)
    ensures Refines(s, Step(s, p), p)
  {
    hide InvOf;
    ChainIn(s, 0);
    match s.threads[p].pc
    case AHead => KeepsLink(s, p); KnowsOf(s, p);
    case HInc => HoldRefines(s, p);
    case RDec | RDec2 => ReleRefines(s, p);
    case FInc => FindOneRefines(s, p);
    case FTest => if s.threads[p].fp == 0 { FindRefines(s, p); }
    case RSetHead | RSetNext => UnlinkChains(s, p); KnowsOf(s, p);
    case RFree => KeepsFree(s, p);
    case ANext => NextRefines(s, p);
    case _ =>
  }

  lemma NextRefines(s: Sys, p: nat)
    requires InvOf(s) == Firm && p < |s.threads| && s.threads[p].pc == ANext
    ensures TableIn(Step(s, p)) == TableIn(s)
  {
    hide InvOf;
    ChainIn(s, 0);
    var s' := Step(s, p);
    forall o ensures OnChain(s'.mem, s'.chains, o) == OnChain(s.mem, s.chains, o) {}
    TableFrame(s.mem, s'.mem, s.chains);
  }

  lemma NextKeeps(s: Sys, s': Sys, p: nat)
    requires InvOf(s) == Firm && p < |s.threads| && StepOf(s, s', p)
    ensures InvOf(s') == Firm && Refines(s, s', p)
  {
    hide InvOf;
    var me := s.threads[p];
    ChainIn(s, 0);
    if Enabled(s, p) && s' == Step(s, p) {
      StepKeeps(s, p);
      StepRefines(s, p);
    } else if exists o: nat, id: int :: o != 0 && o !in s.mem.foo && s' == StartAlloc(s, p, o, id) {
      var o: nat, id: int :| o != 0 && o !in s.mem.foo && s' == StartAlloc(s, p, o, id);
      KeepsStartAlloc(s, p, o, id);
    } else if exists o: nat, q: nat :: o in me.refs && q < |s.threads| && s' == Give(s, p, q, o) {
      var o: nat, q: nat :| o in me.refs && q < |s.threads| && s' == Give(s, p, q, o);
      KeepsGive(s, p, q, o);
    } else {
      KeepsStart(s, s', p);
    }
  }

  // ---- Runs ----

  function Init(n: nat): Sys {
    Sys(Memory(seq(NHASH, b => 0), map[]), None, map[], seq(n, i => Thread(Idle, 0, 0, 0, multiset{}, 0)),
        seq(NHASH, b => []))
  }

  lemma {:induction false} NoRefs(threads: seq<Thread>, o: nat)
    requires forall q :: 0 <= q < |threads| ==> Owed(threads[q], o) == 0
    ensures Refs(threads, o) == 0
  {
    if threads != [] { NoRefs(threads[..|threads| - 1], o); }
  }

  lemma InitInv(n: nat)
    ensures InvOf(Init(n)) == Firm
  {
    var s := Init(n);
    forall o: nat ensures Counted(s, o) { NoRefs(s.threads, o); }
    assert Chained(s.mem, s.chains);
    assert Locks(s) && AllKnow(s) && AllPlaced(s);
  }

  ghost predicate NextAt(run: seq<Sys>, i: nat) {
    0 < i < |run| ==>
      exists p: nat {:trigger run[i - 1].threads[p]} :: p < |run[i - 1].threads| && StepOf(run[i - 1], run[i], p)
  }

  ghost predicate Run(n: nat, run: seq<Sys>) {
    |run| > 0 && run[0] == Init(n) && forall i {:trigger NextAt(run, i)} :: 0 < i < |run| ==> NextAt(run, i)
  }

  /** Every interleaving is one the one-lock version allows: each step is a stutter or a whole call on the table. */
  lemma {:induction false} RunRefines(n: nat, run: seq<Sys>, i: nat)
    requires Run(n, run) && i < |run|
    ensures InvOf(run[i]) == Firm
    ensures i > 0 ==> exists p: nat {:trigger run[i - 1].threads[p]} ::
              p < |run[i - 1].threads| && StepOf(run[i - 1], run[i], p) && Refines(run[i - 1], run[i], p)
  {
    if i == 0 {
      InitInv(n);
    } else {
      RunRefines(n, run, i - 1);
      assert NextAt(run, i);
      var p: nat :| p < |run[i - 1].threads| && StepOf(run[i - 1], run[i], p);
      NextKeeps(run[i - 1], run[i], p);
      assert run[i - 1].threads[p] == run[i - 1].threads[p];
    }
  }

  /** In every reachable state the count of every object is the number of outstanding references, the whole
      unlock-relock window included; every object is on its chain or in the hands of the thread that is linking or
      unlinking it; and no reference is to an object that is gone. */
  lemma CountsAreRefs(n: nat, run: seq<Sys>, i: nat, o: nat)
    requires Run(n, run) && i < |run|
    ensures o in run[i].mem.foo ==> run[i].mem.foo[o].count == Refs(run[i].threads, o) >= 1 && Placed(run[i], o)
    ensures o !in run[i].mem.foo ==> Refs(run[i].threads, o) == 0
    ensures Chained(run[i].mem, run[i].chains)
  {
    RunRefines(n, run, i);
    Look(run[i]);
    assert Counted(run[i], o);
  }

  /** An object is freed by the thread that gives up its last reference, when nobody else can still get at it. */
  lemma FreedExactlyAtLast(n: nat, run: seq<Sys>, i: nat, p: nat, o: nat)
    requires Run(n, run) && i < |run| && p < |run[i].threads| && Enabled(run[i], p)
    requires o in run[i].mem.foo
    ensures o !in Step(run[i], p).mem.foo <==> run[i].threads[p].pc == RFree && run[i].threads[p].fp == o
    ensures o !in Step(run[i], p).mem.foo ==>
              && Refs(run[i].threads, o) == 1 && o !in run[i].fLock
              && forall q :: 0 <= q < |run[i].threads| && q != p ==> Owed(run[i].threads[q], o) == 0
  {
    var s := run[i];
    RunRefines(n, run, i);
    if s.threads[p].pc == RFree && s.threads[p].fp == o {
      KnowsOf(s, p);
      assert Counted(s, o) by { Look(s); }
      forall q | 0 <= q < |s.threads| && q != p ensures Owed(s.threads[q], o) == 0 { FreedByLast(s, p, q); }
    }
  }

  // ---- No deadlock ----

  /** Threads lock the table before any object and never hold two object locks, so some thread can always go on. */
  lemma NoDeadlock(n: nat, run: seq<Sys>, i: nat, p: nat)
    requires Run(n, run) && i < |run| && p < |run[i].threads| && run[i].threads[p].pc != Idle
    ensures exists q: nat :: q < |run[i].threads| && Enabled(run[i], q)
  {
    var s := run[i];
    RunRefines(n, run, i);
    var q := Blocker(s, p);
    if !Enabled(s, p) { BlockerHolds(s, p); }
    var r := if Enabled(s, p) then p else if Enabled(s, q) then q else Blocker(s, q);
    if !Enabled(s, p) && !Enabled(s, q) { BlockerHolds(s, q); }
    assert Enabled(s, r);
  }

  /** Who has the lock that p waits for. */
  function Blocker(s: Sys, p: nat): nat {
    if p >= |s.threads| then p
    else
      match s.threads[p].pc
      case ALockHash | FLockHash | RLockHash => if s.hashLock.Some? then s.hashLock.value else p
      case ALockF | HLock | FLock | RLock | RLockF => if s.threads[p].fp in s.fLock then s.fLock[s.threads[p].fp] else p
      case _ => p
  }

  lemma BlockerHolds(s: Sys, p: nat)
    requires InvOf(s) == Firm && p < |s.threads| && s.threads[p].pc != Idle && !Enabled(s, p)
    ensures var q := Blocker(s, p);
            && q < |s.threads| && s.threads[q].pc != Idle
            && (if s.threads[p].pc in {ALockHash, FLockHash, RLockHash} then HoldsHash(s.threads[q].pc)
                else HoldsF(s.threads[q].pc))
  {
    var q := Blocker(s, p);
    Look(s);
    var a, b := HasHash(s, q), HasF(s, s.threads[p].fp, q);
  }

  /** Does where that thread is keep this one from its next step? */
  predicate HoldsUp(you: Thread, me: Thread) {
    match me.pc
    case ALockHash | FLockHash | RLockHash => HoldsHash(you.pc)
    case ALockF | HLock | FLock | RLock | RLockF => HoldsF(you.pc) && you.fp == me.fp
    case _ => false
  }

  /** A thread waits if and only if another one has the table lock, or the lock of the object, that it asks for. */
  lemma WaitsOnlyFor(n: nat, run: seq<Sys>, i: nat, p: nat)
    requires Run(n, run) && i < |run| && p < |run[i].threads| && run[i].threads[p].pc != Idle
    ensures Enabled(run[i], p) <==>
            forall q :: 0 <= q < |run[i].threads| ==> !HoldsUp(run[i].threads[q], run[i].threads[p])
  {
    var s := run[i];
    RunRefines(n, run, i);
    assert Locks(s) by { Look(s); }
    if !Enabled(s, p) {
      var q := Blocker(s, p);
      var a, b := HasHash(s, q), HasF(s, s.threads[p].fp, q);
      assert HoldsUp(s.threads[q], s.threads[p]);
    } else {
      forall q: nat | q < |s.threads| ensures !HoldsUp(s.threads[q], s.threads[p]) {
        var a, b := HasHash(s, q), HasF(s, s.threads[p].fp, q);
      }
    }
  }

  /** A release goes for the table lock only when it finds that it holds the last reference there is; any other one lets
      go of the object without ever having locked the table. */
  lemma TableLockForLastOnly(n: nat, run: seq<Sys>, i: nat, p: nat)
    requires Run(n, run) && i < |run| && p < |run[i].threads| && run[i].threads[p].pc in {RTest, RDec, RUnlock}
    ensures var (s, me, s') := (run[i], run[i].threads[p], Step(run[i], p));
            && s'.hashLock == s.hashLock && p < |s'.threads|
            && (me.pc == RTest ==> s'.threads[p].pc == if Refs(s.threads, me.fp) == 1 then RUnlockFirst else RDec)
            && (me.pc == RDec ==> s'.threads[p].pc == RUnlock) && (me.pc == RUnlock ==> s'.threads[p].pc == Idle)
  {
    var s := run[i];
    var o := s.threads[p].fp;
    CountsAreRefs(n, run, i, o);
    if s.threads[p].pc == RTest {
      assert o in s.mem.foo by {
        RunRefines(n, run, i);
        KnowsOf(s, p);
      }
    }
  }
}
