/** Each call of the two-lock version passes exactly one step that is the whole call. */
module FooTwoLocksCalls {
  import opened Options
  import opened Seals
  import opened FooTable
  import opened FooTwoLocks
  import opened FooTwoLocksProof

  /** The step the thread is about to take is the one that is the whole call; for a find that meets the end of the
      chain it is the look at that end. */
  predicate Commits(me: Thread) {
    match me.pc
    case AHead | HInc | FInc | RDec | RDec2 | RSetHead | RSetNext => true
    case FTest => me.fp == 0
    case _ => false
  }

  /** Places behind that step. */
  predicate Done(pc: Pc) {
    match pc
    case ALockF | AUnlockHash | AUnlockF | HUnlock | FUnlock | FUnlockHash => true
    case RUnlock | RUnlockF2 | RUnlockHash2 | RUnlockHash | RUnlockF | RFree => true
    case _ => false
  }

  /** How far a call is from its end. */
  function Stage(pc: Pc): nat {
    match pc
    case ALockHash => 6 case ANext => 5 case AHead => 4 case ALockF => 3 case AUnlockHash => 2 case AUnlockF => 1
    case HLock => 3 case HInc => 2 case HUnlock => 1
    case FLockHash => 7 case FHead => 6 case FTest => 5 case FLock => 4 case FInc => 3 case FUnlock => 2
    case FUnlockHash => 1
    case RLock => 15 case RTest => 14 case RUnlockFirst => 13 case RLockHash => 12 case RLockF => 11 case RRecheck => 10
    case RHead =>
      9 case RWalk => 8 case RSetHead | RSetNext => 7 case RUnlockHash => 6 case RUnlockF => 5 case RFree => 4
    case RDec2 => 3 case RDec | RUnlockF2 => 2 case RUnlock | RUnlockHash2 => 1
    case Idle => 0
  }

  /** Nearer to the end, or in one of the two walks along a chain, and one object further. */
  predicate Nearer(me: Thread, me': Thread) {
    Stage(me'.pc) < Stage(me.pc) || (me'.pc == me.pc && me.pc in {FTest, RWalk} && me'.pos == me.pos + 1)
  }

  /** A call begins before that step, goes on to it, and once past it keeps what it will return and returns. */
  ghost predicate Proceeds(me: Thread, me': Thread) {
    && (if me.pc == Idle then !Done(me'.pc) else Nearer(me, me'))
    && (Commits(me) ==> !Done(me.pc) && Done(me'.pc) && me'.fp == me.fp)
    && (me.pc != Idle && !Done(me.pc) && !Commits(me) ==> me'.pc != Idle && !Done(me'.pc))
    && (Done(me.pc) ==> (Done(me'.pc) || me'.pc == Idle) && me'.fp == me.fp)
  }

  /** The thread after its step; memory, locks and the other threads have no part in it. */
  lemma StepThreads(s: Sys, p: nat)
    requires p < |s.threads| && Enabled(s, p)
    ensures Step(s, p).threads == s.threads[p := Step(s, p).threads[p]]
  {
    hide SetNext, SetHead, SetCount, Pushed, Removed, FooAt, Head, Bucket;
    match s.threads[p].pc
    case AUnlockF | HUnlock | FUnlockHash =>
    case HInc | FInc | RDec | RDec2 =>
    case RSetHead | RSetNext =>
    case _ =>
  }

  lemma GetProceeds(s: Sys, p: nat)
    requires p < |s.threads| && Enabled(s, p)
    requires s.threads[p].pc in {ALockHash, ANext, AHead, ALockF, AUnlockHash, AUnlockF, HLock, HInc, HUnlock}
    ensures Proceeds(s.threads[p], Step(s, p).threads[p])
  {
    hide SetNext, SetHead, SetCount, Pushed, FooAt, Head, Bucket;
  }

  lemma FindProceeds(s: Sys, p: nat)
    requires p < |s.threads| && Enabled(s, p)
    requires s.threads[p].pc in {FLockHash, FHead, FTest, FLock}
    ensures Proceeds(s.threads[p], Step(s, p).threads[p])
  {
    hide FooAt, Head, Bucket;
  }

  lemma FoundProceeds(s: Sys, p: nat)
    requires p < |s.threads| && Enabled(s, p) && s.threads[p].pc in {FInc, FUnlock, FUnlockHash}
    ensures Proceeds(s.threads[p], Step(s, p).threads[p])
  {
    hide SetCount, FooAt;
  }

  lemma ReleProceeds(s: Sys, p: nat)
    requires p < |s.threads| && Enabled(s, p)
    requires s.threads[p].pc in {RLock, RTest, RDec, RUnlock, RUnlockFirst}
    ensures Proceeds(s.threads[p], Step(s, p).threads[p])
  {
    hide SetCount, FooAt;
  }

  lemma RecheckProceeds(s: Sys, p: nat)
    requires p < |s.threads| && Enabled(s, p)
    requires s.threads[p].pc in {RLockHash, RLockF, RRecheck, RDec2, RUnlockF2}
    ensures Proceeds(s.threads[p], Step(s, p).threads[p])
  {
    hide SetCount, FooAt;
  }

  lemma FreeProceeds(s: Sys, p: nat)
    requires p < |s.threads| && Enabled(s, p)
    requires s.threads[p].pc in {RHead, RWalk, RSetHead, RSetNext}
    ensures Proceeds(s.threads[p], Step(s, p).threads[p])
  {
    hide SetNext, SetHead, Removed, FooAt, Head, Bucket;
  }

  lemma FreedProceeds(s: Sys, p: nat)
    requires p < |s.threads| && Enabled(s, p) && s.threads[p].pc in {RUnlockHash, RUnlockF, RFree, RUnlockHash2}
    ensures Proceeds(s.threads[p], Step(s, p).threads[p])
  {
  }

  lemma StepProceeds(s: Sys, p: nat)
    requires p < |s.threads| && Enabled(s, p)
    ensures Proceeds(s.threads[p], Step(s, p).threads[p])
  {
    hide Proceeds, Step;
    match s.threads[p].pc
    case ALockHash | ANext | AHead | ALockF | AUnlockHash | AUnlockF | HLock | HInc | HUnlock => GetProceeds(s, p);
    case FLockHash | FHead | FTest | FLock => FindProceeds(s, p);
    case FInc | FUnlock | FUnlockHash => FoundProceeds(s, p);
    case RLock | RTest | RDec | RUnlock | RUnlockFirst => ReleProceeds(s, p);
    case RLockHash | RLockF | RRecheck | RDec2 | RUnlockF2 => RecheckProceeds(s, p);
    case RHead | RWalk | RSetHead | RSetNext => FreeProceeds(s, p);
    case RUnlockHash | RUnlockF | RFree | RUnlockHash2 => FreedProceeds(s, p);
    case Idle => assert false;
  }

  /** The threads after a step of p: another one may at most have been handed a reference. */
  ghost predicate Stay(s: Sys, s': Sys, p: nat) {
    && p < |s.threads| == |s'.threads| && Proceeds(s.threads[p], s'.threads[p])
    && forall q {:trigger s'.threads[q]} :: 0 <= q < |s.threads| && q != p ==>
         s'.threads[q].pc == s.threads[q].pc && s'.threads[q].fp == s.threads[q].fp
  }

  lemma GiveStays(s: Sys, p: nat, q: nat, o: nat)
    requires p < |s.threads| && s.threads[p].pc == Idle && q < |s.threads|
    ensures Stay(s, Give(s, p, q, o), p)
  {
  }

  lemma CallStays(s: Sys, p: nat, o: nat, id: int)
    requires p < |s.threads| && s.threads[p].pc == Idle
    ensures Stay(s, StartAlloc(s, p, o, id), p) && Stay(s, StartFind(s, p, id), p)
    ensures Stay(s, StartHold(s, p, o), p) && Stay(s, StartRele(s, p, o), p)
  {
  }

  lemma StartStays(s: Sys, s': Sys, p: nat)
    requires p < |s.threads| && s.threads[p].pc == Idle && StepOf(s, s', p)
    ensures Stay(s, s', p)
  {
    hide Step, Stay, Give, StartAlloc, StartFind, StartHold, StartRele;
    var me := s.threads[p];
    if o: nat, q: nat :| o in me.refs && q < |s.threads| && s' == Give(s, p, q, o) {
      GiveStays(s, p, q, o);
    } else if o: nat, id: int :| o != 0 && o !in s.mem.foo && s' == StartAlloc(s, p, o, id) {
      CallStays(s, p, o, id);
    } else if id: int :| s' == StartFind(s, p, id) {
      CallStays(s, p, 0, id);
    } else if o: nat :| o in me.refs && s' == StartHold(s, p, o) {
      CallStays(s, p, o, 0);
    } else {
      var o: nat :| o in me.refs && s' == StartRele(s, p, o);
      CallStays(s, p, o, 0);
    }
  }

  lemma OthersStay(s: Sys, s': Sys, p: nat)
    requires p < |s.threads| && StepOf(s, s', p)
    ensures Stay(s, s', p)
  {
    if s.threads[p].pc == Idle {
      hide Step, Proceeds;
      StartStays(s, s', p);
    } else {
      hide Step, Proceeds;
      StepProceeds(s, p);
      StepThreads(s, p);
    }
  }

  /** From state b on thread p is in one call; `c` is the step that was the whole call, if it has been taken by x. */
  ghost predicate CallSoFar(run: seq<Sys>, b: nat, x: nat, p: nat, c: Option<nat>) {
    && b < x < |run| && (forall y :: b < y <= x ==> p < |run[y].threads|)
    && match c
       case None => forall y :: b < y <= x ==> !Done(run[y].threads[p].pc)
       case Some(c) =>
         && b < c < x && (forall y :: b < y <= c ==> !Done(run[y].threads[p].pc))
         && Commits(run[c].threads[p]) && StepOf(run[c], run[c + 1], p)
         && forall y :: c < y <= x ==> Done(run[y].threads[p].pc) && run[y].threads[p].fp == run[c].threads[p].fp
  }

  lemma {:induction false} Follow(n: nat, run: seq<Sys>, b: nat, x: nat, p: nat) returns (c: Option<nat>)
    requires Run(n, run) && b < x < |run| && p < |run[b].threads| && run[b].threads[p].pc == Idle
    requires forall y :: b < y <= x && p < |run[y].threads| ==> run[y].threads[p].pc != Idle
    ensures CallSoFar(run, b, x, p, c)
  {
    hide StepOf, Proceeds;
    assert NextAt(run, x);
    var q: nat :| q < |run[x - 1].threads| && StepOf(run[x - 1], run[x], q);
    OthersStay(run[x - 1], run[x], q);
    c := None;
    if x == b + 1 {
      Begins(run[b], run[x], p, q);
    } else {
      c := Follow(n, run, b, x - 1, p);
      assert run[x - 1].threads[p].pc != Idle;
      c := GoOn(run, b, x, p, q, c);
    }
  }

  lemma Begins(s: Sys, s': Sys, p: nat, q: nat)
    requires p < |s.threads| && q < |s.threads| && StepOf(s, s', q) && s.threads[p].pc == Idle
    ensures p < |s'.threads| && !Done(s'.threads[p].pc)
  {
    OthersStay(s, s', q);
  }

  lemma GoOn(run: seq<Sys>, b: nat, x: nat, p: nat, q: nat, c: Option<nat>) returns (c': Option<nat>)
    requires b + 1 < x < |run| && CallSoFar(run, b, x - 1, p, c) && q < |run[x - 1].threads|
             && StepOf(run[x - 1], run[x], q)
    requires run[x - 1].threads[p].pc != Idle && (p < |run[x].threads| ==> run[x].threads[p].pc != Idle)
    ensures CallSoFar(run, b, x, p, c')
  {
    hide StepOf;
    OthersStay(run[x - 1], run[x], q);
    c' := if c == None && q == p && Commits(run[x - 1].threads[p]) then Some(x - 1) else c;
  }

  /** Every call, of whatever kind, takes that step once between its beginning and its return; what it returns is the
      object it had then. */
  lemma CommitsOnce(n: nat, run: seq<Sys>, b: nat, e: nat, p: nat) returns (c: nat)
    requires Run(n, run) && b + 1 < e < |run| && p < |run[b].threads| && p < |run[e].threads|
    requires run[b].threads[p].pc == Idle && run[e].threads[p].pc == Idle
    requires forall y :: b < y < e && p < |run[y].threads| ==> run[y].threads[p].pc != Idle
    ensures c < e - 1 && CallSoFar(run, b, e - 1, p, Some(c)) && run[e].threads[p].fp == run[c].threads[p].fp
    ensures StepOf(run[c], run[c + 1], p) && Refines(run[c], run[c + 1], p)
  {
    hide StepOf, Refines;
    var c' := Follow(n, run, b, e - 1, p);
    assert NextAt(run, e);
    var q: nat :| q < |run[e - 1].threads| && StepOf(run[e - 1], run[e], q);
    OthersStay(run[e - 1], run[e], q);
    c := c'.value;
    RunRefines(n, run, c);
    NextKeeps(run[c], run[c + 1], p);
  }

  /** Each step brings a call nearer to its end, and the two walks, which no other thread can disturb, are no longer
      than their chains: so a call needs only finitely many steps of its own. */
  lemma CallsEnd(n: nat, run: seq<Sys>, i: nat, p: nat)
    requires Run(n, run) && i < |run| && p < |run[i].threads| && Enabled(run[i], p)
    ensures var (s, s') := (run[i], Step(run[i], p));
            p < |s'.threads| && Nearer(s.threads[p], s'.threads[p]) && WithinChain(s', p)
  {
    var s := run[i];
    hide Step, Proceeds, Nearer;
    RunRefines(n, run, i);
    StepThreads(s, p);
    assert Nearer(s.threads[p], Step(s, p).threads[p]) by {
      StepProceeds(s, p);
      assert s.threads[p].pc != Idle;
    }
    NextKeeps(s, Step(s, p), p);
    InWalk(Step(s, p), p);
  }

  ghost predicate WithinChain(s: Sys, p: nat)
    requires p < |s.threads|
  {
    var me := s.threads[p];
    && (me.pc == FTest ==> me.pos <= |ChainFor(s.chains, me.id)|)
    && (me.pc == RWalk ==> me.pos < |ChainFor(s.chains, FooAt(s.mem, me.fp).id)|)
  }

  lemma InWalk(s: Sys, p: nat)
    requires InvOf(s) == Firm && p < |s.threads|
    ensures WithinChain(s, p)
  {
    KnowsOf(s, p);
  }

  /** While a thread has the table locked no other one changes a chain. */
  lemma ChainsFrozen(n: nat, run: seq<Sys>, i: nat, p: nat, q: nat, s': Sys)
    requires Run(n, run) && i < |run| && p < |run[i].threads| && q < |run[i].threads| && p != q
    requires HoldsHash(run[i].threads[p].pc) && StepOf(run[i], s', q)
    ensures s'.chains == run[i].chains
  {
    var s := run[i];
    RunRefines(n, run, i);
    assert !HoldsHash(s.threads[q].pc) by {
      Look(s);
      var mine, yours := HasHash(s, p), HasHash(s, q);
    }
    hide SetNext, SetHead, SetCount, Pushed, Removed, FooAt, Head, Bucket;
  }
}
