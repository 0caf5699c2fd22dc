/**
 The version with two levels of locks: the table lock and one lock in every object. A step is one lock call or
 one access to shared memory by one thread. `refs` are the references a thread owns; `chains` and `pos` are
 bookkeeping.
 */
module FooTwoLocks {
  import opened Options
  import opened Seals
  import opened FooTable

  /** Where a thread is: what it does next. */
  datatype Pc =
    | Idle
    // foo_alloc, after malloc and the initialisation of the lock
    | ALockHash | ANext | AHead | ALockF | AUnlockHash | AUnlockF
    // foo_hold
    | HLock | HInc | HUnlock
    // foo_find
    | FLockHash | FHead | FTest | FLock | FInc | FUnlock | FUnlockHash
    // foo_rele
    | RLock | RTest | RDec | RUnlock
    | RUnlockFirst | RLockHash | RLockF | RRecheck | RDec2 | RUnlockF2 | RUnlockHash2
    | RHead | RWalk | RSetHead | RSetNext | RUnlockHash | RUnlockF | RFree

  datatype Thread = Thread(pc: Pc, fp: nat, tfp: nat, id: int, refs: multiset<nat>, pos: nat)

  datatype Sys = Sys(mem: Memory, hashLock: Option<nat>, fLock: map<nat, nat>, threads: seq<Thread>,
                     chains: seq<seq<nat>>)

  function Head(m: Memory, b: nat): nat { if b < |m.fh| then m.fh[b] else 0 }

  function Set(s: Sys, p: nat, me: Thread): Sys
    requires p < |s.threads|
  {
    s.(threads := s.threads[p := me])
  }

  /** May thread p take its next step now? Only lock calls wait. */
  predicate Enabled(s: Sys, p: nat)
    requires p < |s.threads|
  {
    var me := s.threads[p];
    match me.pc
    case Idle => false
    case ALockHash | FLockHash | RLockHash => s.hashLock == None
    case ALockF | HLock | FLock | RLock | RLockF => me.fp !in s.fLock
    case _ => true
  }

  function TakeHash(s: Sys, p: nat, next: Pc): Sys
    requires p < |s.threads|
  {
    Set(s, p, s.threads[p].(pc := next)).(hashLock := Some(p))
  }

  function DropHash(s: Sys, p: nat, next: Pc): Sys
    requires p < |s.threads|
  {
    Set(s, p, s.threads[p].(pc := next)).(hashLock := None)
  }

  function TakeF(s: Sys, p: nat, next: Pc): Sys
    requires p < |s.threads|
  {
    Set(s, p, s.threads[p].(pc := next)).(fLock := s.fLock[s.threads[p].fp := p])
  }

  function DropF(s: Sys, p: nat, next: Pc): Sys
    requires p < |s.threads|
  {
    Set(s, p, s.threads[p].(pc := next)).(fLock := s.fLock - {s.threads[p].fp})
  }

  function Count(s: Sys, p: nat, d: int, next: Pc): Sys
    requires p < |s.threads|
  {
    var fp := s.threads[p].fp;
    Set(s, p, s.threads[p].(pc := next)).(mem := SetCount(s.mem, fp, FooAt(s.mem, fp).count + d))
  }

  /** The reference a finished call leaves with its caller. */
  function Owning(s: Sys, p: nat): Sys
    requires p < |s.threads|
  {
    var me := s.threads[p];
    Set(s, p, if me.fp == 0 then me else me.(refs := me.refs + multiset{me.fp}))
  }

  /** Unlinking writes one pointer: the head, or the next pointer of the object in front. */
  function Unlink(s: Sys, p: nat, m': Memory): Sys
    requires p < |s.threads|
  {
    var me := s.threads[p];
    Set(s, p, me.(pc := RUnlockHash)).(mem := m', chains := Removed(s.chains, Bucket(FooAt(s.mem, me.fp).id), me.fp))
  }

  function Step(s: Sys, p: nat): Sys
    requires p < |s.threads| && Enabled(s, p)
  {
    var me := s.threads[p];
    var at := FooAt(s.mem, me.fp);
    match me.pc
    case ALockHash => TakeHash(s, p, ANext)
    case ANext => Set(s, p, me.(pc := AHead)).(mem := SetNext(s.mem, me.fp, Head(s.mem, Bucket(me.id))))
    case AHead =>
      var b := Bucket(me.id);
      Set(s, p, me.(pc := ALockF)).(mem := SetHead(s.mem, b, me.fp), chains := Pushed(s.chains, b, me.fp))
    case ALockF => TakeF(s, p, AUnlockHash)
    case AUnlockHash => DropHash(s, p, AUnlockF)
    case AUnlockF => DropF(Owning(s, p), p, Idle)

    case HLock => TakeF(s, p, HInc)
    case HInc => Count(s, p, 1, HUnlock)
    case HUnlock => DropF(Owning(s, p), p, Idle)

    case FLockHash => TakeHash(s, p, FHead)
    case FHead => Set(s, p, me.(pc := FTest, fp := Head(s.mem, Bucket(me.id)), pos := 0))
    case FTest =>
      if me.fp == 0 then Set(s, p, me.(pc := FUnlockHash))
      else if at.id == me.id then Set(s, p, me.(pc := FLock))
      else Set(s, p, me.(fp := at.next, pos := me.pos + 1))
    case FLock => TakeF(s, p, FInc)
    case FInc => Count(s, p, 1, FUnlock)
    case FUnlock => DropF(s, p, FUnlockHash)
    case FUnlockHash => DropHash(Owning(s, p), p, Idle)

    case RLock => TakeF(s, p, RTest)
    case RTest => Set(s, p, me.(pc := if at.count == 1 then RUnlockFirst else RDec))
    case RDec => Count(s, p, -1, RUnlock)
    case RUnlock => DropF(s, p, Idle)
    case RUnlockFirst => DropF(s, p, RLockHash)
    case RLockHash => TakeHash(s, p, RLockF)
    case RLockF => TakeF(s, p, RRecheck)
    case RRecheck => Set(s, p, me.(pc := if at.count != 1 then RDec2 else RHead))
    case RDec2 => Count(s, p, -1, RUnlockF2)
    case RUnlockF2 => DropF(s, p, RUnlockHash2)
    case RUnlockHash2 => DropHash(s, p, Idle)
    case RHead =>
      var tfp := Head(s.mem, Bucket(at.id));
      Set(s, p, me.(pc := if tfp == me.fp then RSetHead else RWalk, tfp := tfp, pos := 0))
    case RWalk =>
      var next := FooAt(s.mem, me.tfp).next;
      if next != me.fp then Set(s, p, me.(tfp := next, pos := me.pos + 1)) else Set(s, p, me.(pc := RSetNext))
    case RSetHead => Unlink(s, p, SetHead(s.mem, Bucket(at.id), at.next))
    case RSetNext => Unlink(s, p, SetNext(s.mem, me.tfp, at.next))
    case RUnlockHash => DropHash(s, p, RUnlockF)
    case RUnlockF => DropF(s, p, RFree)
    case RFree => Set(s, p, me.(pc := Idle)).(mem := s.mem.(foo := s.mem.foo - {me.fp}))
  }

  // ---- Calls ----

  function StartAlloc(s: Sys, p: nat, o: nat, id: int): Sys
    requires p < |s.threads|
  {
    Set(s, p, s.threads[p].(pc := ALockHash, fp := o, id := id)).(mem := s.mem.(foo := s.mem.foo[o := Foo(1, id, 0)]))
  }

  function StartHold(s: Sys, p: nat, o: nat): Sys
    requires p < |s.threads|
  {
    Set(s, p, s.threads[p].(pc := HLock, fp := o))
  }

  function StartFind(s: Sys, p: nat, id: int): Sys
    requires p < |s.threads|
  {
    Set(s, p, s.threads[p].(pc := FLockHash, id := id))
  }

  function StartRele(s: Sys, p: nat, o: nat): Sys
    requires p < |s.threads|
  {
    Set(s, p, s.threads[p].(pc := RLock, fp := o, refs := s.threads[p].refs - multiset{o}))
  }

  /** A thread hands a reference to another one. */
  function Give(s: Sys, p: nat, q: nat, o: nat): Sys
    requires p < |s.threads| && q < |s.threads|
  {
    var s1 := Set(s, p, s.threads[p].(refs := s.threads[p].refs - multiset{o}));
    Set(s1, q, s1.threads[q].(refs := s1.threads[q].refs + multiset{o}))
  }

  /** An idle thread calls, with references it owns; or a busy one goes on. */
  ghost predicate StepOf(s: Sys, s': Sys, p: nat)
    requires p < |s.threads|
  {
    var me := s.threads[p];
    || (Enabled(s, p) && s' == Step(s, p))
    || (me.pc == Idle && exists o: nat, id: int :: o != 0 && o !in s.mem.foo && s' == StartAlloc(s, p, o, id))
    || (me.pc == Idle && exists id: int :: s' == StartFind(s, p, id))
    || (me.pc == Idle && exists o: nat :: o in me.refs && s' == StartHold(s, p, o))
    || (me.pc == Idle && exists o: nat :: o in me.refs && s' == StartRele(s, p, o))
    || (me.pc == Idle && exists o: nat, q: nat :: o in me.refs && q < |s.threads| && s' == Give(s, p, q, o))
  }

  // ---- References ----

  /** Places in which the thread has a reference to fp besides those in `refs`: one it will return, or one it has
      been given to release and has not yet given up. */
  predicate Carries(pc: Pc) {
    match pc
    case ALockHash | ANext | AHead | ALockF | AUnlockHash | AUnlockF => true
    case HUnlock | FUnlock | FUnlockHash => true
    case RLock | RTest | RDec | RUnlockFirst | RLockHash | RLockF | RRecheck | RDec2 => true
    case RHead | RWalk | RSetHead | RSetNext | RUnlockHash | RUnlockF | RFree => true
    case _ => false
  }

  function Owed(me: Thread, o: nat): nat {
    me.refs[o] + if Carries(me.pc) && me.fp == o && o != 0 then 1 else 0
  }

  /** All outstanding references to an object. */
  function Refs(threads: seq<Thread>, o: nat): nat {
    if threads == [] then 0 else Refs(threads[..|threads| - 1], o) + Owed(threads[|threads| - 1], o)
  }

  lemma {:induction false} RefsPut(threads: seq<Thread>, p: nat, me: Thread, o: nat)
    requires p < |threads|
    ensures Refs(threads[p := me], o) == Refs(threads, o) - Owed(threads[p], o) + Owed(me, o)
    ensures Owed(threads[p], o) <= Refs(threads, o)
  {
    var n := |threads| - 1;
    if p < n {
      RefsPut(threads[..n], p, me, o);
      assert threads[p := me][..n] == threads[..n][p := me];
    } else {
      assert threads[p := me][..n] == threads[..n];
    }
  }

  lemma {:induction false} RefsOfTwo(threads: seq<Thread>, p: nat, q: nat, o: nat)
    requires p < |threads| && q < |threads| && p != q
    ensures Owed(threads[p], o) + Owed(threads[q], o) <= Refs(threads, o)
  {
    var n := |threads| - 1;
    if p < n && q < n { RefsOfTwo(threads[..n], p, q, o); }
    else if p < n { RefsPut(threads[..n], p, threads[p], o); }
    else { RefsPut(threads[..n], q, threads[q], o); }
  }

  // ---- Locks ----

  predicate HoldsHash(pc: Pc) {
    match pc
    case ANext | AHead | ALockF | AUnlockHash => true
    case FHead | FTest | FLock | FInc | FUnlock | FUnlockHash => true
    case RLockF | RRecheck | RDec2 | RUnlockF2 | RUnlockHash2 => true
    case RHead | RWalk | RSetHead | RSetNext | RUnlockHash => true
    case _ => false
  }

  predicate HoldsF(pc: Pc) {
    match pc
    case AUnlockHash | AUnlockF | HInc | HUnlock | FInc | FUnlock => true
    case RTest | RDec | RUnlock | RUnlockFirst => true
    case RRecheck | RDec2 | RUnlockF2 | RHead | RWalk | RSetHead | RSetNext | RUnlockHash | RUnlockF => true
    case _ => false
  }

  predicate HasHash(s: Sys, q: nat) { s.hashLock == Some(q) }

  predicate HasF(s: Sys, o: nat, q: nat) { o in s.fLock && s.fLock[o] == q }

  ghost predicate Locks(s: Sys) {
    && (forall q: nat {:trigger HasHash(s, q)} :: HasHash(s, q) <==> q < |s.threads| && HoldsHash(s.threads[q].pc))
    && (forall o: nat, q: nat {:trigger HasF(s, o, q)} ::
          HasF(s, o, q) <==> q < |s.threads| && HoldsF(s.threads[q].pc) && s.threads[q].fp == o)
  }

  // ---- What a thread knows ----

  ghost predicate Passed(m: Memory, xs: seq<nat>, pos: nat, id: int) {
    forall j :: 0 <= j < pos && j < |xs| ==> xs[j] in m.foo && m.foo[xs[j]].id != id
  }

  function ChainFor(chains: seq<seq<nat>>, id: int): seq<nat> { if |chains| == NHASH then chains[Bucket(id)] else [] }

  /** An object of p's own, on no chain. */
  ghost predicate Apart(m: Memory, chains: seq<seq<nat>>, o: nat) {
    o != 0 && o in m.foo && m.foo[o].count == 1 && !OnChain(m, chains, o)
  }

  ghost predicate Last(m: Memory, chains: seq<seq<nat>>, o: nat) {
    o != 0 && o in m.foo && m.foo[o].count == 1 && OnChain(m, chains, o)
  }

  ghost predicate Knows(m: Memory, chains: seq<seq<nat>>, fLock: map<nat, nat>, me: Thread) {
    var xs := ChainFor(chains, me.id);
    var ys := ChainFor(chains, FooAt(m, me.fp).id);
    && (HoldsF(me.pc) || (Carries(me.pc) && me.fp != 0) ==> me.fp in m.foo)
    && match me.pc
       case ALockHash | ANext => Apart(m, chains, me.fp) && m.foo[me.fp].id == me.id
       case AHead => Apart(m, chains, me.fp) && m.foo[me.fp].id == me.id && m.foo[me.fp].next == Head(m, Bucket(me.id))
       case ALockF | AUnlockHash | AUnlockF => me.fp != 0
       case HLock | HInc => me.fp in me.refs && me.fp != 0
       case HUnlock => me.fp != 0
       case FTest => me.pos <= |xs| && me.fp == Elem(xs, me.pos) && Passed(m, xs, me.pos, me.id)
       case FLock | FInc =>
         me.pos < |xs| && me.fp == xs[me.pos] && me.fp in m.foo && m.foo[me.fp].id == me.id
           && Passed(m, xs, me.pos, me.id)
       case FUnlock => me.fp != 0 && m.foo[me.fp].id == me.id
       case RLock | RTest | RUnlockFirst | RLockHash | RLockF | RRecheck => me.fp != 0
       case RDec | RDec2 => me.fp != 0 && m.foo[me.fp].count != 1
       case RHead => Last(m, chains, me.fp)
       case RWalk => Last(m, chains, me.fp) && me.pos < |ys| && me.tfp == ys[me.pos] && me.fp in ys[me.pos + 1..]
       case RSetHead => Last(m, chains, me.fp) && |ys| > 0 && ys[0] == me.fp
       case RSetNext => Last(m, chains, me.fp) && me.pos + 1 < |ys| && me.tfp == ys[me.pos] && me.fp == ys[me.pos + 1]
       case RUnlockHash | RUnlockF => Apart(m, chains, me.fp)
       case RFree => Apart(m, chains, me.fp) && me.fp !in fLock
       case _ => true
  }

  /** The object this thread has not yet linked, or has already unlinked. */
  function Loose(me: Thread): Option<nat> {
    match me.pc
    case ALockHash | ANext | AHead | RUnlockHash | RUnlockF | RFree => Some(me.fp)
    case _ => None
  }

  ghost predicate Placed(s: Sys, o: nat) {
    OnChain(s.mem, s.chains, o) || exists q :: 0 <= q < |s.threads| && Loose(s.threads[q]) == Some(o)
  }

  // ---- The invariant ----

  ghost predicate Counted(s: Sys, o: nat) {
    && (o in s.mem.foo ==> o != 0 && s.mem.foo[o].count == Refs(s.threads, o) && s.mem.foo[o].count >= 1)
    && (o !in s.mem.foo ==> Refs(s.threads, o) == 0)
  }

  ghost predicate Counts(s: Sys) { forall o: nat {:trigger Counted(s, o)} :: Counted(s, o) }

  ghost predicate AllKnow(s: Sys) {
    forall q {:trigger s.threads[q]} :: 0 <= q < |s.threads| ==> Knows(s.mem, s.chains, s.fLock, s.threads[q])
  }

  ghost predicate AllPlaced(s: Sys) { forall o {:trigger Placed(s, o)} :: o in s.mem.foo ==> Placed(s, o) }

  ghost predicate Inv(s: Sys) {
    Chained(s.mem, s.chains) && Counts(s) && Locks(s) && AllKnow(s) && AllPlaced(s)
  }

  /** The invariant, sealed. */
  ghost function InvOf(s: Sys): Standing {
    if forall t {:trigger Opened(t)} :: Opened(t) ==> Inv(s) then Firm else Shaken
  }

  lemma Look(s: Sys)
    requires InvOf(s) == Firm
    ensures Inv(s)
  {
    assert Opened(true);
  }
}
