/**
 The three-member semaphore sets: [0] is the semaphore, [1] counts down from BIGCOUNT the processes that have it
 open, [2] is a lock. A step is one system call of one process, or the death of a process, on which the kernel
 applies the process's undo adjustments. `base` is bookkeeping: what each member was last set to.
 */
module Semaphore {
  import opened Options

  // ---- The kernel ----

  datatype SemOp = SemOp(num: nat, op: int, undo: bool)

  /** One number for each member of a set: [0] the semaphore, [1] the process counter, [2] the lock. */
  datatype Members = Members(sem: int, count: int, lock: int) {
    function At(k: nat): int { if k == 0 then sem else if k == 1 then count else lock }

    function With(k: nat, v: int): Members {
      if k == 0 then this.(sem := v) else if k == 1 then this.(count := v) else this.(lock := v)
    }
  }

  const ZEROS := Members(0, 0, 0)

  /** One operation: wait for zero, or add unless that would make the value negative. */
  function Once(vals: Members, o: SemOp): Option<Members> {
    var v := vals.At(o.num);
    if o.op == 0 then if v == 0 then Some(vals) else None
    else if v + o.op < 0 then None
    else Some(vals.With(o.num, v + o.op))
  }

  function AdjustOnce(adj: Members, o: SemOp): Members {
    if o.undo then adj.With(o.num, adj.At(o.num) - o.op) else adj
  }

  /** semop: all operations of the table one after the other, or nothing at all and the caller waits. */
  function Apply(vals: Members, ops: seq<SemOp>): Option<Members>
    decreases |ops|
  {
    if ops == [] then Some(vals)
    else
      match Once(vals, ops[0])
      case Some(vals') => Apply(vals', ops[1..])
      case None => None
  }

  /** What the same table does to the caller's undo adjustments. */
  function Adjust(adj: Members, ops: seq<SemOp>): Members
    decreases |ops|
  {
    if ops == [] then adj else Adjust(AdjustOnce(adj, ops[0]), ops[1..])
  }

  /** The undo at exit: a value never falls below zero. */
  function Undone(vals: Members, adj: Members): Members {
    Members(Clip(vals.sem + adj.sem), Clip(vals.count + adj.count), Clip(vals.lock + adj.lock))
  }

  function Clip(v: int): int { if v < 0 then 0 else v }

  // ---- The operation tables ----

  const BIGCOUNT: int := 10000

  const OP_LOCK: seq<SemOp> := [SemOp(2, 0, false), SemOp(2, 1, true)]
  const OP_ENDCREATE: seq<SemOp> := [SemOp(1, -1, true), SemOp(2, -1, true)]
  const OP_CLOSE: seq<SemOp> := [SemOp(2, 0, false), SemOp(2, 1, true), SemOp(1, 1, true)]
  const OP_UNLOCK: seq<SemOp> := [SemOp(2, -1, true)]

  function OpOp(amount: int): seq<SemOp> { [SemOp(0, amount, true)] }

  /** Every table that changes a value asks for its undo, so value plus adjustment is what it was. */
  lemma {:induction false} UndoBalances(vals: Members, adj: Members, ops: seq<SemOp>, k: nat)
    requires k < 3 && forall i :: 0 <= i < |ops| ==> ops[i].num < 3 && (ops[i].op == 0 || ops[i].undo)
    requires Apply(vals, ops).Some?
    ensures Apply(vals, ops).value.At(k) + Adjust(adj, ops).At(k) == vals.At(k) + adj.At(k)
    decreases |ops|
  {
    if ops != [] {
      UndoBalances(Once(vals, ops[0]).value, AdjustOnce(adj, ops[0]), ops[1..], k);
    }
  }

  lemma One(vals: Members, adj: Members, a: SemOp)
    ensures Apply(vals, [a]) == Once(vals, a) && Adjust(adj, [a]) == AdjustOnce(adj, a)
  {
    assert [a][1..] == [];
  }

  lemma TwoOps(vals: Members, adj: Members, a: SemOp, b: SemOp)
    ensures Apply(vals, [a, b]) == match Once(vals, a) { case Some(v) => Once(v, b) case None => None }
    ensures Adjust(adj, [a, b]) == AdjustOnce(AdjustOnce(adj, a), b)
  {
    assert [a, b][1..] == [b];
    if Once(vals, a).Some? { One(Once(vals, a).value, AdjustOnce(adj, a), b); }
    One(vals, AdjustOnce(adj, a), b);
  }

  lemma Three(vals: Members, adj: Members, a: SemOp, b: SemOp, c: SemOp)
    ensures Apply(vals, [a, b, c])
            == match Once(vals, a)
               case Some(v) => (match Once(v, b) { case Some(w) => Once(w, c) case None => None })
               case None => None
    ensures Adjust(adj, [a, b, c]) == AdjustOnce(AdjustOnce(AdjustOnce(adj, a), b), c)
  {
    assert [a, b, c][1..] == [b, c];
    if Once(vals, a).Some? { TwoOps(Once(vals, a).value, AdjustOnce(adj, a), b, c); }
    TwoOps(vals, AdjustOnce(adj, a), b, c);
  }

  lemma LockTable(vals: Members, adj: Members)
    ensures Apply(vals, OP_LOCK) == if vals.lock == 0 then Some(vals.(lock := 1)) else None
    ensures Adjust(adj, OP_LOCK) == adj.(lock := adj.lock - 1)
  {
    TwoOps(vals, adj, OP_LOCK[0], OP_LOCK[1]);
  }

  lemma EndCreateTable(vals: Members, adj: Members)
    ensures Apply(vals, OP_ENDCREATE)
            == if vals.count < 1 || vals.lock < 1 then None
               else Some(vals.(count := vals.count - 1, lock := vals.lock - 1))
    ensures Adjust(adj, OP_ENDCREATE) == adj.(count := adj.count + 1, lock := adj.lock + 1)
  {
    TwoOps(vals, adj, OP_ENDCREATE[0], OP_ENDCREATE[1]);
  }

  lemma CloseTable(vals: Members, adj: Members)
    requires vals.count >= 0
    ensures Apply(vals, OP_CLOSE) == if vals.lock == 0 then Some(vals.(lock := 1, count := vals.count + 1)) else None
    ensures Adjust(adj, OP_CLOSE) == adj.(lock := adj.lock - 1, count := adj.count - 1)
  {
    var a, b, c := OP_CLOSE[0], OP_CLOSE[1], OP_CLOSE[2];
    Three(vals, adj, a, b, c);
    CloseThree(vals, adj, a, b, c);
  }

  lemma CloseThree(vals: Members, adj: Members, a: SemOp, b: SemOp, c: SemOp)
    requires vals.count >= 0 && a == SemOp(2, 0, false) && b == SemOp(2, 1, true) && c == SemOp(1, 1, true)
    ensures (match Once(vals, a)
             case Some(v) => (match Once(v, b) { case Some(w) => Once(w, c) case None => None })
             case None => None) == if vals.lock == 0 then Some(vals.(lock := 1, count := vals.count + 1)) else None
    ensures AdjustOnce(AdjustOnce(AdjustOnce(adj, a), b), c) == adj.(lock := adj.lock - 1, count := adj.count - 1)
  {
  }

  lemma UnlockTable(vals: Members, adj: Members)
    ensures Apply(vals, OP_UNLOCK) == if vals.lock < 1 then None else Some(vals.(lock := vals.lock - 1))
    ensures Adjust(adj, OP_UNLOCK) == adj.(lock := adj.lock + 1)
  {
    One(vals, adj, OP_UNLOCK[0]);
  }

  lemma OpTable(vals: Members, adj: Members, amount: int)
    requires amount != 0
    ensures Apply(vals, OpOp(amount)) == if vals.sem + amount < 0 then None else Some(vals.(sem := vals.sem + amount))
    ensures Adjust(adj, OpOp(amount)) == adj.(sem := adj.sem - amount)
  {
    One(vals, adj, OpOp(amount)[0]);
  }

  // ---- Processes ----

  /** Where a process is: the call it makes next. The Wait places are calls that have blocked. */
  datatype Pc =
    | Idle | Gone
    // sem_create
    | Get | Lock | LockWait | Read | Init0 | Init1 | EndCreate
    // sem_close
    | Close | CloseWait | CloseRead | Remove | Unlock

  /** `opens` counts the process's finished creates that it has not begun to close. */
  datatype Proc = Proc(pc: Pc, id: nat, semval: int, initval: nat, opens: nat)

  /** One key: the current set, if there is one, and its identifier. Identifiers are not used again. */
  datatype Sys = Sys(live: bool, id: nat, val: Members, adj: seq<Members>, procs: seq<Proc>, base: Members)

  predicate Stale(s: Sys, p: nat)
    requires p < |s.procs|
  {
    !s.live || s.procs[p].id != s.id
  }

  predicate Shaped(s: Sys) { |s.adj| == |s.procs| }

  function Set(s: Sys, p: nat, me: Proc): Sys
    requires p < |s.procs|
  {
    s.(procs := s.procs[p := me])
  }

  /** A successful semop by p. */
  function Did(s: Sys, p: nat, vals: Members, ops: seq<SemOp>, me: Proc): Sys
    requires p < |s.procs| == |s.adj|
  {
    s.(val := vals, adj := s.adj[p := Adjust(s.adj[p], ops)], procs := s.procs[p := me])
  }

  /** The process ends, of its own will or not. */
  function Dead(s: Sys, p: nat): Sys
    requires p < |s.procs| == |s.adj|
  {
    var me := s.procs[p].(pc := Gone, opens := 0);
    s.(val := if s.live then Undone(s.val, s.adj[p]) else s.val, adj := s.adj[p := ZEROS], procs := s.procs[p := me])
  }

  /** Setting a member clears every process's adjustment for it. */
  function SetVal(s: Sys, k: nat, v: int): Sys
    requires k < 3
  {
    s.(val := s.val.With(k, v), adj := Cleared(s.adj, k), base := s.base.With(k, v))
  }

  function Cleared(adj: seq<Members>, k: nat): (r: seq<Members>)
    requires k < 3
    ensures |r| == |adj| && forall p :: 0 <= p < |adj| ==> r[p] == adj[p].With(k, 0)
  {
    seq(|adj|, p requires 0 <= p < |adj| => adj[p].With(k, 0))
  }

  function AllZero(n: nat): (r: seq<Members>)
    ensures |r| == n && forall p :: 0 <= p < n ==> r[p] == ZEROS
  {
    seq(n, p => ZEROS)
  }

  // ---- Steps ----

  /** The next call of p, or None while it has to wait. Failing calls that the program does not survive are deaths. */
  function Step(s: Sys, p: nat): Option<Sys>
    requires p < |s.procs| == |s.adj|
  {
    var me := s.procs[p];
    match me.pc
    case Idle | Gone => None
    case Get =>
      if s.live then Some(Set(s, p, me.(pc := Lock, id := s.id)))
      else
        var s1 := s.(live := true, id := s.id + 1, val := ZEROS, adj := AllZero(|s.adj|), base := ZEROS);
        Some(Set(s1, p, me.(pc := Lock, id := s.id + 1)))
    case Lock =>
      if Stale(s, p) then Some(Set(s, p, me.(pc := Get)))             // EINVAL: goto again
      else
        (match Apply(s.val, OP_LOCK)
         case Some(vals) => Some(Did(s, p, vals, OP_LOCK, me.(pc := Read)))
         case None => Some(Set(s, p, me.(pc := LockWait))))
    case LockWait =>
      if Stale(s, p) then Some(Dead(s, p))                            // EIDRM: err_sys
      else
        (match Apply(s.val, OP_LOCK)
         case Some(vals) => Some(Did(s, p, vals, OP_LOCK, me.(pc := Read)))
         case None => None)
    case Read =>
      if Stale(s, p) then Some(Dead(s, p))
      else Some(Set(s, p, me.(pc := if s.val.count == 0 then Init0 else EndCreate, semval := s.val.count)))
    case Init0 =>
      if Stale(s, p) then Some(Dead(s, p)) else Some(Set(SetVal(s, 0, me.initval), p, me.(pc := Init1)))
    case Init1 =>
      if Stale(s, p) then Some(Dead(s, p)) else Some(Set(SetVal(s, 1, BIGCOUNT), p, me.(pc := EndCreate)))
    case EndCreate =>
      if Stale(s, p) then Some(Dead(s, p))
      else
        (match Apply(s.val, OP_ENDCREATE)
         case Some(vals) => Some(Did(s, p, vals, OP_ENDCREATE, me.(pc := Idle, opens := me.opens + 1)))
         case None => None)
    case Close | CloseWait =>
      if Stale(s, p) then Some(Dead(s, p))
      else
        (match Apply(s.val, OP_CLOSE)
         case Some(vals) =>
           var opens := if me.opens == 0 then 0 else me.opens - 1;
           Some(Did(s, p, vals, OP_CLOSE, me.(pc := CloseRead, opens := opens)))
         case None => if me.pc == Close then Some(Set(s, p, me.(pc := CloseWait))) else None)
    case CloseRead =>
      if Stale(s, p) then Some(Dead(s, p))
      else if s.val.count > BIGCOUNT then Some(Dead(s, p))               // err_dump
      else Some(Set(s, p, me.(pc := if s.val.count == BIGCOUNT then Remove else Unlock, semval := s.val.count)))
    case Remove =>
      if Stale(s, p) then Some(Dead(s, p))
      else Some(Set(s, p, me.(pc := Idle)).(live := false, adj := AllZero(|s.adj|)))
    case Unlock =>
      if Stale(s, p) then Some(Dead(s, p))
      else
        (match Apply(s.val, OP_UNLOCK)
         case Some(vals) => Some(Did(s, p, vals, OP_UNLOCK, me.(pc := Idle)))
         case None => None)
  }

  /** sem_op, by a process that has the semaphore open. */
  function Operate(s: Sys, p: nat, amount: int): Option<Sys>
    requires p < |s.procs| == |s.adj|
  {
    if Stale(s, p) then Some(Dead(s, p))
    else
      match Apply(s.val, OpOp(amount))
      case Some(vals) => Some(Did(s, p, vals, OpOp(amount), s.procs[p]))
      case None => None
  }

  ghost predicate StepOf(s: Sys, s': Sys, p: nat)
    requires p < |s.procs| == |s.adj|
  {
    var me := s.procs[p];
    || Step(s, p) == Some(s')
    || (me.pc == Idle && exists v: nat :: s' == Set(s, p, me.(pc := Get, initval := v)))
    || (me.pc == Idle && me.opens > 0 && s' == Set(s, p, me.(pc := Close)))
    || (me.pc == Idle && me.opens > 0 && exists amount :: amount != 0 && Operate(s, p, amount) == Some(s'))
  }

  ghost predicate CrashOf(s: Sys, s': Sys, p: nat)
    requires p < |s.procs| == |s.adj|
  {
    s.procs[p].pc != Gone && s' == Dead(s, p)
  }

  // ---- Sums over the processes ----

  /** All adjustments for member k that are still to be applied. */
  function Total(adj: seq<Members>, k: nat): int {
    if adj == [] then 0 else Total(adj[..|adj| - 1], k) + adj[|adj| - 1].At(k)
  }

  /** How often the processes have the set open. */
  function Opens(procs: seq<Proc>): nat {
    if procs == [] then 0 else Opens(procs[..|procs| - 1]) + procs[|procs| - 1].opens
  }

  lemma {:induction false} TotalPut(adj: seq<Members>, p: nat, a: Members, k: nat)
    requires p < |adj|
    ensures Total(adj[p := a], k) == Total(adj, k) - adj[p].At(k) + a.At(k)
  {
    var n := |adj| - 1;
    if p < n {
      TotalPut(adj[..n], p, a, k);
      assert adj[p := a][..n] == adj[..n][p := a];
    } else {
      assert adj[p := a][..n] == adj[..n];
    }
  }

  lemma {:induction false} TotalCleared(adj: seq<Members>, j: nat, k: nat)
    requires j < 3 && k < 3
    ensures Total(Cleared(adj, j), k) == if j == k then 0 else Total(adj, k)
  {
    if adj != [] {
      var n := |adj| - 1;
      TotalCleared(adj[..n], j, k);
      assert Cleared(adj, j)[..n] == Cleared(adj[..n], j);
    }
  }

  lemma {:induction false} TotalZero(adj: seq<Members>, k: nat)
    requires forall p :: 0 <= p < |adj| ==> adj[p].At(k) == 0
    ensures Total(adj, k) == 0
  {
    if adj != [] { TotalZero(adj[..|adj| - 1], k); }
  }

  lemma {:induction false} TotalAtMost(adj: seq<Members>, k: nat, p: nat)
    requires p < |adj| && forall q :: 0 <= q < |adj| ==> adj[q].At(k) <= 0
    ensures Total(adj, k) <= adj[p].At(k)
  {
    var n := |adj| - 1;
    if p < n { TotalAtMost(adj[..n], k, p); }
    else if n > 0 { TotalAtMost(adj[..n], k, 0); }
  }

  lemma {:induction false} TotalIsOpens(adj: seq<Members>, procs: seq<Proc>)
    requires |adj| == |procs| && forall q :: 0 <= q < |adj| ==> adj[q].count == procs[q].opens
    ensures Total(adj, 1) == Opens(procs)
  {
    if adj != [] { TotalIsOpens(adj[..|adj| - 1], procs[..|adj| - 1]); }
  }

  lemma {:induction false} OpensAtLeast(procs: seq<Proc>, p: nat)
    requires p < |procs|
    ensures Opens(procs) >= procs[p].opens
  {
    if p < |procs| - 1 { OpensAtLeast(procs[..|procs| - 1], p); }
  }

  // ---- The invariant ----

  /** Between locking and unlocking [2]. */
  predicate Holds(pc: Pc) {
    match pc
    case Read | Init0 | Init1 | EndCreate | CloseRead | Remove | Unlock => true
    case _ => false
  }

  ghost predicate Conserved(s: Sys, k: nat) {
    s.val.At(k) + Total(s.adj, k) == s.base.At(k)
  }

  ghost predicate Values(s: Sys) {
    && Conserved(s, 1) && Conserved(s, 2)
    && s.base.lock == 0 && (s.base.count == 0 || s.base.count == BIGCOUNT)
    && s.val.count >= 0 && s.val.lock >= 0 && s.val.sem >= 0
  }

  ghost predicate Knows(s: Sys, p: nat)
    requires p < |s.procs| == |s.adj|
  {
    var me, adj := s.procs[p], s.adj[p];
    && adj.count == me.opens && adj.lock == (if Holds(me.pc) then -1 else 0)
    && (Holds(me.pc) || me.opens > 0 ==> s.live && me.id == s.id)
    && me.id <= s.id
    && (me.pc in {Close, CloseWait} ==> me.opens > 0)
    && (me.pc in {Init0, Init1} ==> s.base.count == 0)
    && (me.pc in {EndCreate, CloseRead, Remove, Unlock} ==> s.base.count == BIGCOUNT)
    && (me.pc == Remove ==> s.val.count == BIGCOUNT)
    && (me.pc == Gone ==> adj == ZEROS)
    && (!s.live ==> adj == ZEROS)
  }

  ghost predicate OneHolder(s: Sys) {
    forall p, q :: 0 <= p < |s.procs| && 0 <= q < |s.procs| && Holds(s.procs[p].pc) && Holds(s.procs[q].pc) ==> p == q
  }

  ghost predicate Inv(s: Sys) {
    && Shaped(s) && (s.live ==> Values(s)) && OneHolder(s)
    && forall p {:trigger Knows(s, p)} :: 0 <= p < |s.procs| ==> Knows(s, p)
  }

  /** Fewer than BIGCOUNT opens. */
  predicate Few(s: Sys) { Opens(s.procs) < BIGCOUNT }

  /** What the counter and the lock say. */
  lemma Reading(s: Sys)
    requires Inv(s) && s.live
    ensures s.val.count == s.base.count - Opens(s.procs)
    ensures s.val.lock == 0 ==> forall p :: 0 <= p < |s.procs| ==> !Holds(s.procs[p].pc)
    ensures forall p :: 0 <= p < |s.procs| && Holds(s.procs[p].pc) ==> s.val.lock >= 1
  {
    forall q | 0 <= q < |s.adj| ensures s.adj[q].count == s.procs[q].opens && s.adj[q].lock <= 0 { assert Knows(s, q); }
    TotalIsOpens(s.adj, s.procs);
    forall p | 0 <= p < |s.procs| && Holds(s.procs[p].pc) ensures s.val.lock >= 1 {
      assert Knows(s, p);
      TotalAtMost(s.adj, 2, p);
    }
  }

  /** A process that holds the lock is the only one, and then [2] is 1. */
  lemma LockIsOne(s: Sys, p: nat)
    requires Inv(s) && s.live && p < |s.procs| && Holds(s.procs[p].pc)
    ensures s.val.lock == 1
  {
    var adj := s.adj[p := ZEROS];
    assert Knows(s, p);
    TotalPut(s.adj, p, ZEROS, 2);
    forall q | 0 <= q < |adj| ensures adj[q].At(2) == 0 { assert Knows(s, q); }
    TotalZero(adj, 2);
  }

  lemma LockIsZero(s: Sys)
    requires Inv(s) && s.live && forall p :: 0 <= p < |s.procs| ==> !Holds(s.procs[p].pc)
    ensures s.val.lock == 0
  {
    forall q | 0 <= q < |s.adj| ensures s.adj[q].At(2) == 0 { assert Knows(s, q); }
    TotalZero(s.adj, 2);
  }

  // ---- Every step keeps it ----

  /** Only p has changed, and only its adjustments. */
  lemma OthersKnow(s: Sys, s': Sys, p: nat)
    requires Inv(s) && p < |s.procs| && s'.live && s.live && s'.id == s.id && s'.base == s.base
    requires |s'.procs| == |s.procs| && |s'.adj| == |s.adj|
    requires forall q :: 0 <= q < |s.procs| && q != p ==> s'.procs[q] == s.procs[q] && s'.adj[q] == s.adj[q]
    requires Knows(s', p)
    requires s'.val.count == s.val.count || forall q :: 0 <= q < |s.procs| && q != p ==> s.procs[q].pc != Remove
    ensures forall q {:trigger Knows(s', q)} :: 0 <= q < |s.procs| ==> Knows(s', q)
  {
    forall q | 0 <= q < |s.procs| ensures Knows(s', q) { if q != p { assert Knows(s, q); } }
  }

  /** A table that asks for undo keeps the conservation of every member. */
  lemma DidConserves(s: Sys, p: nat, vals: Members, ops: seq<SemOp>, me: Proc, k: nat)
    requires p < |s.procs| == |s.adj| && k < 3 && Conserved(s, k) && Apply(s.val, ops) == Some(vals)
    requires forall i :: 0 <= i < |ops| ==> ops[i].num < 3 && (ops[i].op == 0 || ops[i].undo)
    ensures Conserved(Did(s, p, vals, ops, me), k)
  {
    UndoBalances(s.val, s.adj[p], ops, k);
    TotalPut(s.adj, p, Adjust(s.adj[p], ops), k);
  }

  lemma ValuesAfter(s: Sys, p: nat, vals: Members, ops: seq<SemOp>, me: Proc)
    requires Inv(s) && s.live && p < |s.procs| && Apply(s.val, ops) == Some(vals)
    requires forall i :: 0 <= i < |ops| ==> ops[i].num < 3 && (ops[i].op == 0 || ops[i].undo)
    requires vals.count >= 0 && vals.lock >= 0 && vals.sem >= 0
    ensures Values(Did(s, p, vals, ops, me))
  {
    DidConserves(s, p, vals, ops, me, 1);
    DidConserves(s, p, vals, ops, me, 2);
  }

  /** sem_create and sem_close taking the lock: nobody holds it. */
  lemma AfterLocking(s: Sys, p: nat, vals: Members, s': Sys)
    requires Inv(s) && p < |s.procs| && s.procs[p].pc in {Lock, LockWait} && !Stale(s, p)
    requires Apply(s.val, OP_LOCK) == Some(vals) && s' == Did(s, p, vals, OP_LOCK, s.procs[p].(pc := Read))
    ensures Inv(s')
  {
    LockTable(s.val, s.adj[p]);
    Reading(s);
    ValuesAfter(s, p, vals, OP_LOCK, s.procs[p].(pc := Read));
    assert Knows(s, p);
    OthersKnow(s, s', p);
  }

  lemma AfterClosing(s: Sys, p: nat, vals: Members, s': Sys)
    requires Inv(s) && p < |s.procs| && s.procs[p].pc in {Close, CloseWait} && !Stale(s, p)
    requires Apply(s.val, OP_CLOSE) == Some(vals) && Step(s, p) == Some(s')
    ensures Inv(s')
  {
    CloseTable(s.val, s.adj[p]);
    Reading(s);
    ValuesAfter(s, p, vals, OP_CLOSE, s'.procs[p]);
    assert Knows(s, p);
    assert s.base.count == BIGCOUNT by { OpensAtLeast(s.procs, p); }
    OthersKnow(s, s', p);
  }

  lemma AfterEndCreate(s: Sys, p: nat, vals: Members, s': Sys)
    requires Inv(s) && p < |s.procs| && s.procs[p].pc == EndCreate && !Stale(s, p)
    requires Apply(s.val, OP_ENDCREATE) == Some(vals) && Step(s, p) == Some(s')
    ensures Inv(s')
  {
    EndCreateTable(s.val, s.adj[p]);
    ValuesAfter(s, p, vals, OP_ENDCREATE, s'.procs[p]);
    assert Knows(s, p);
    OthersKnow(s, s', p);
  }

  lemma AfterUnlock(s: Sys, p: nat, vals: Members, s': Sys)
    requires Inv(s) && p < |s.procs| && s.procs[p].pc == Unlock && !Stale(s, p)
    requires Apply(s.val, OP_UNLOCK) == Some(vals) && Step(s, p) == Some(s')
    ensures Inv(s')
  {
    UnlockTable(s.val, s.adj[p]);
    ValuesAfter(s, p, vals, OP_UNLOCK, s'.procs[p]);
    assert Knows(s, p);
    OthersKnow(s, s', p);
  }

  lemma AfterOperate(s: Sys, p: nat, amount: int, s': Sys)
    requires Inv(s) && p < |s.procs| && s.procs[p].pc == Idle && s.procs[p].opens > 0 && amount != 0
    requires Operate(s, p, amount) == Some(s')
    ensures Inv(s')
  {
    assert Knows(s, p);
    OpTable(s.val, s.adj[p], amount);
    ValuesAfter(s, p, Apply(s.val, OpOp(amount)).value, OpOp(amount), s.procs[p]);
    OthersKnow(s, s', p);
  }

  /** A wait, or a signal, of any amount: it goes on if and only if the value does not fall below zero, changes [0] by
      just that amount, and asks for its undo. */
  lemma OperateMeans(s: Sys, p: nat, amount: int)
    requires p < |s.procs| == |s.adj| && amount != 0 && !Stale(s, p)
    ensures Operate(s, p, amount).Some? <==> s.val.sem + amount >= 0
    ensures Operate(s, p, amount).Some? ==>
              Operate(s, p, amount).value == s.(val := s.val.(sem := s.val.sem + amount),
                                                adj := s.adj[p := s.adj[p].(sem := s.adj[p].sem - amount)])
  {
    OpTable(s.val, s.adj[p], amount);
    assert s.procs[p := s.procs[p]] == s.procs;
  }

  /** A step that moves only the process. */
  lemma AfterMove(s: Sys, p: nat, me': Proc)
    requires Inv(s) && p < |s.procs| && me'.opens == s.procs[p].opens
    requires Holds(me'.pc) ==> Holds(s.procs[p].pc)
    requires Knows(Set(s, p, me'), p)
    ensures Inv(Set(s, p, me'))
  {
    var s' := Set(s, p, me');
    forall q | 0 <= q < |s.procs| ensures Knows(s', q) { if q != p { assert Knows(s, q); } }
  }

  lemma AfterGet(s: Sys, p: nat, s': Sys)
    requires Inv(s) && p < |s.procs| && s.procs[p].pc == Get && Step(s, p) == Some(s')
    ensures Inv(s')
  {
    assert Knows(s, p);
    if s.live {
      AfterMove(s, p, s.procs[p].(pc := Lock, id := s.id));
    } else {
      TotalZero(s'.adj, 1);
      TotalZero(s'.adj, 2);
      forall q | 0 <= q < |s.procs| ensures Knows(s', q) { assert Knows(s, q); }
    }
  }

  /** The reader of a zero counter is the first user of the set. */
  lemma AfterRead(s: Sys, p: nat, s': Sys)
    requires Inv(s) && Few(s) && p < |s.procs| && s.procs[p].pc == Read && Step(s, p) == Some(s')
    ensures Inv(s')
  {
    assert Knows(s, p);
    Reading(s);
    AfterMove(s, p, s'.procs[p]);
  }

  lemma AfterSetVal(s: Sys, p: nat, s': Sys)
    requires Inv(s) && p < |s.procs| && s.procs[p].pc in {Init0, Init1} && Step(s, p) == Some(s')
    ensures Inv(s') && Opens(s.procs) == 0
  {
    assert Knows(s, p);
    Reading(s);
    var k: nat := if s.procs[p].pc == Init0 then 0 else 1;
    TotalCleared(s.adj, k, 1);
    TotalCleared(s.adj, k, 2);
    forall q | 0 <= q < |s.procs| ensures Knows(s', q) {
      assert Knows(s, q);
      OpensAtLeast(s.procs, q);
      assert Holds(s.procs[q].pc) ==> q == p;
    }
  }

  lemma AfterCloseRead(s: Sys, p: nat, s': Sys)
    requires Inv(s) && p < |s.procs| && s.procs[p].pc == CloseRead && Step(s, p) == Some(s')
    ensures Inv(s') && s'.procs[p].pc != Gone
    ensures s'.procs[p].pc == Remove <==> Opens(s.procs) == 0
  {
    assert Knows(s, p);
    Reading(s);
    AfterMove(s, p, s'.procs[p]);
  }

  /** The set is removed only when no process has it open. */
  lemma AfterRemove(s: Sys, p: nat, s': Sys)
    requires Inv(s) && p < |s.procs| && s.procs[p].pc == Remove && Step(s, p) == Some(s')
    ensures Inv(s') && Opens(s.procs) == 0
  {
    assert Knows(s, p);
    Reading(s);
    forall q | 0 <= q < |s.procs| ensures Knows(s', q) {
      assert Knows(s, q);
      OpensAtLeast(s.procs, q);
    }
  }

  /** Whenever and wherever a process dies, the kernel's undo takes back exactly what it had taken of [1] and [2]. */
  lemma AfterDeath(s: Sys, p: nat)
    requires Inv(s) && p < |s.procs|
    ensures Inv(Dead(s, p))
    ensures s.live ==> var v' := Dead(s, p).val;
            && v'.count == s.val.count + s.procs[p].opens
            && v'.lock == if Holds(s.procs[p].pc) then 0 else s.val.lock
  {
    var s' := Dead(s, p);
    assert Knows(s, p);
    if s.live {
      Reading(s);
      if Holds(s.procs[p].pc) { LockIsOne(s, p); }
      TotalPut(s.adj, p, ZEROS, 1);
      TotalPut(s.adj, p, ZEROS, 2);
      if s.procs[p].opens > 0 {
        forall q | 0 <= q < |s.procs| && q != p ensures s.procs[q].pc != Remove {
          assert Knows(s, q);
          OpensAtLeast(s.procs, p);
        }
      }
      OthersKnow(s, s', p);
    } else {
      forall q | 0 <= q < |s.procs| ensures Knows(s', q) { assert Knows(s, q); }
    }
  }

  lemma StepKeeps(s: Sys, p: nat, s': Sys)
    requires Inv(s) && Few(s) && p < |s.procs| && Step(s, p) == Some(s')
    ensures Inv(s')
  {
    assert Knows(s, p);
    if s' == Dead(s, p) {
      AfterDeath(s, p);
    } else {
      match s.procs[p].pc
      case Get => AfterGet(s, p, s');
      case Lock =>
        if Stale(s, p) || Apply(s.val, OP_LOCK).None? { AfterMove(s, p, s'.procs[p]); }
        else { AfterLocking(s, p, Apply(s.val, OP_LOCK).value, s'); }
      case LockWait => AfterLocking(s, p, Apply(s.val, OP_LOCK).value, s');
      case Read => AfterRead(s, p, s');
      case Init0 => AfterSetVal(s, p, s');
      case Init1 => AfterSetVal(s, p, s');
      case EndCreate => AfterEndCreate(s, p, Apply(s.val, OP_ENDCREATE).value, s');
      case Close =>
        if Apply(s.val, OP_CLOSE).None? { AfterMove(s, p, s'.procs[p]); }
        else { AfterClosing(s, p, Apply(s.val, OP_CLOSE).value, s'); }
      case CloseWait => AfterClosing(s, p, Apply(s.val, OP_CLOSE).value, s');
      case CloseRead => AfterCloseRead(s, p, s');
      case Remove => AfterRemove(s, p, s');
      case Unlock => AfterUnlock(s, p, Apply(s.val, OP_UNLOCK).value, s');
    }
  }

  lemma NextKeeps(s: Sys, s': Sys, p: nat)
    requires Inv(s) && Few(s) && p < |s.procs| && (StepOf(s, s', p) || CrashOf(s, s', p))
    ensures Inv(s')
  {
    var me := s.procs[p];
    assert Knows(s, p);
    if CrashOf(s, s', p) {
      AfterDeath(s, p);
    } else if Step(s, p) == Some(s') {
      StepKeeps(s, p, s');
    } else if exists v: nat :: s' == Set(s, p, me.(pc := Get, initval := v)) {
      var v: nat :| s' == Set(s, p, me.(pc := Get, initval := v));
      AfterMove(s, p, me.(pc := Get, initval := v));
    } else if s' == Set(s, p, me.(pc := Close)) {
      AfterMove(s, p, me.(pc := Close));
    } else {
      var amount :| amount != 0 && Operate(s, p, amount) == Some(s');
      AfterOperate(s, p, amount, s');
    }
  }

  // ---- Runs ----

  function Init(n: nat): Sys {
    Sys(false, 0, ZEROS, AllZero(n), seq(n, i => Proc(Idle, 0, 0, 0, 0)), ZEROS)
  }

  ghost predicate NextAt(run: seq<Sys>, i: nat) {
    0 < i < |run| ==>
      exists p: nat {:trigger run[i - 1].procs[p]} :: p < |run[i - 1].procs| == |run[i - 1].adj|
        && (StepOf(run[i - 1], run[i], p) || CrashOf(run[i - 1], run[i], p))
  }

  /** Any interleaving of creates, closes, semaphore operations and deaths of n processes, with fewer than BIGCOUNT
      opens at any time. */
  ghost predicate Run(n: nat, run: seq<Sys>) {
    && |run| > 0 && run[0] == Init(n)
    && (forall i {:trigger NextAt(run, i)} :: 0 < i < |run| ==> NextAt(run, i))
    && forall i {:trigger Few(run[i])} :: 0 <= i < |run| ==> Few(run[i])
  }

  lemma {:induction false} RunKeeps(n: nat, run: seq<Sys>, i: nat)
    requires Run(n, run) && i < |run|
    ensures Inv(run[i])
  {
    if i == 0 {
      forall p | 0 <= p < n ensures Knows(run[0], p) {}
    } else {
      RunKeeps(n, run, i - 1);
      assert NextAt(run, i) && Few(run[i - 1]);
      var p: nat :| p < |run[i - 1].procs| == |run[i - 1].adj|
        && (StepOf(run[i - 1], run[i], p) || CrashOf(run[i - 1], run[i], p));
      NextKeeps(run[i - 1], run[i], p);
    }
  }

  // ---- What every run promises ----

  /** The counter is BIGCOUNT minus the number of opens once the set is initialised; the lock is 1 exactly while
      some process is between locking and unlocking, and then only one is. */
  lemma CountersTrue(n: nat, run: seq<Sys>, i: nat)
    requires Run(n, run) && i < |run| && run[i].live
    ensures var s := run[i];
            && (s.base.count == BIGCOUNT ==> s.val.count == BIGCOUNT - Opens(s.procs))
            && (s.base.count == 0 ==> s.val.count == 0 && Opens(s.procs) == 0)
            && (s.val.lock == 0 || s.val.lock == 1)
            && (s.val.lock == 1 <==> exists p :: 0 <= p < |s.procs| && Holds(s.procs[p].pc))
            && OneHolder(s)
  {
    var s := run[i];
    RunKeeps(n, run, i);
    Reading(s);
    if exists p :: 0 <= p < |s.procs| && Holds(s.procs[p].pc) {
      var p :| 0 <= p < |s.procs| && Holds(s.procs[p].pc);
      LockIsOne(s, p);
    } else {
      LockIsZero(s);
    }
  }

  /** sem_close removes a set, and sem_create initialises one, only while no process has it open; and a set that
      was initialised once is not initialised again. */
  lemma RemovedOrSetOnlyUnused(n: nat, run: seq<Sys>, i: nat, p: nat, s': Sys)
    requires Run(n, run) && i < |run| && p < |run[i].procs| == |run[i].adj| && Step(run[i], p) == Some(s')
    ensures run[i].live && !s'.live ==> Opens(run[i].procs) == 0
    ensures run[i].procs[p].pc in {Init0, Init1} && !Stale(run[i], p) ==>
            Opens(run[i].procs) == 0 && run[i].base.count == 0
  {
    var s := run[i];
    RunKeeps(n, run, i);
    assert Knows(s, p);
    if s.live && !s'.live { AfterRemove(s, p, s'); }
    if s.procs[p].pc in {Init0, Init1} { AfterSetVal(s, p, s'); }
  }

  /** Of the processes that close, exactly the one that finds nobody else has the set open goes on to remove it; and of
      those that create, exactly one that finds the set without its count goes on to initialise it. */
  lemma LastAndFirst(n: nat, run: seq<Sys>, i: nat, p: nat, s': Sys)
    requires Run(n, run) && i < |run| && p < |run[i].procs| == |run[i].adj| && Step(run[i], p) == Some(s')
    ensures run[i].procs[p].pc == CloseRead ==>
              s'.procs[p].pc == (if Opens(run[i].procs) == 0 then Remove else Unlock)
              && s'.procs[p].semval == run[i].val.count
    ensures run[i].procs[p].pc == Read && !Stale(run[i], p) ==>
              s'.procs[p].pc == (if run[i].base.count == 0 then Init0 else EndCreate)
              && s'.procs[p].semval == run[i].val.count
    ensures run[i].procs[p].pc == Init0 && !Stale(run[i], p) ==>
              s'.procs[p].pc == Init1 && s'.val.sem == s'.base.sem == run[i].procs[p].initval
  {
    var s := run[i];
    RunKeeps(n, run, i);
    assert Knows(s, p) && Few(s);
    if s.procs[p].pc == CloseRead { AfterCloseRead(s, p, s'); }
    if s.procs[p].pc == Read && !Stale(s, p) { Reading(s); }
  }

  /** A call fails if and only if it is the one of a process that was waiting for the lock when the set was removed. A
      creator that had not yet asked for the lock starts again; sem_close and sem_op never find the set gone. */
  lemma OnlyWaitersFail(n: nat, run: seq<Sys>, i: nat, p: nat, s': Sys)
    requires Run(n, run) && i < |run| && p < |run[i].procs| == |run[i].adj| && Step(run[i], p) == Some(s')
    ensures s'.procs[p].pc == Gone <==> run[i].procs[p].pc == LockWait && Stale(run[i], p)
    ensures run[i].procs[p].pc == Lock && Stale(run[i], p) ==> s'.procs[p].pc == Get
    ensures run[i].procs[p].opens > 0 ==> !Stale(run[i], p)
  {
    RunKeeps(n, run, i);
    assert Knows(run[i], p);
    if run[i].procs[p].pc == CloseRead { AfterCloseRead(run[i], p, s'); }
  }

  /** How far a call is from its end. */
  function Stage(pc: Pc): nat {
    match pc
    case Get => 7 case Lock => 6 case LockWait => 5 case Read => 4 case Init0 => 3 case Init1 => 2 case EndCreate => 1
    case Close => 4 case CloseWait => 3 case CloseRead => 2 case Remove | Unlock => 1
    case Idle | Gone => 0
  }

  /** Each step brings a call nearer to its end, but for that of a creator that finds its set removed before it has
      asked for the lock, and begins again. */
  lemma CallsEnd(s: Sys, p: nat)
    requires p < |s.procs| == |s.adj| && Step(s, p).Some?
    ensures var s' := Step(s, p).value;
            p < |s'.procs| && if s.procs[p].pc == Lock && Stale(s, p) then s'.procs[p].pc == Get
                              else Stage(s'.procs[p].pc) < Stage(s.procs[p].pc)
  {
    hide Apply, Adjust, Undone, Cleared;
    match s.procs[p].pc
    case Get =>
    case Init0 | Init1 =>
    case Remove =>
    case _ =>
  }

  // ---- What the semaphore was set to ----

  /** From asking for the set to being counted as one of its users. */
  predicate Creating(pc: Pc) {
    match pc
    case Get | Lock | LockWait | Read | Init0 | Init1 | EndCreate => true
    case _ => false
  }

  /** A step of p: p begins a create, with some initial value, or keeps the one it has; the others stay as they are. */
  lemma ValueKept(s: Sys, s': Sys, p: nat)
    requires p < |s.procs| == |s.adj| && (StepOf(s, s', p) || CrashOf(s, s', p))
    ensures |s'.procs| == |s.procs| && forall q :: 0 <= q < |s.procs| && q != p ==> s'.procs[q] == s.procs[q]
    ensures var me, me' := s.procs[p], s'.procs[p];
            if me.pc == Idle && me'.pc == Get then true
            else me'.initval == me.initval && (Creating(me'.pc) ==> Creating(me.pc))
  {
    hide Apply, Adjust, Undone, Cleared;
    if Step(s, p) == Some(s') {
      match s.procs[p].pc
      case Get =>
      case Init0 | Init1 =>
      case Remove =>
      case _ =>
    }
  }

  ghost predicate InCreate(run: seq<Sys>, y: nat, p: nat, v: int) {
    y < |run| && p < |run[y].procs| && Creating(run[y].procs[p].pc) && run[y].procs[p].initval == v
  }

  /** From state b on, and up to state x, process p is in one sem_create, called with the value v. */
  ghost predicate CreateSince(run: seq<Sys>, b: nat, x: nat, p: nat, v: int) {
    && 0 < b <= x < |run| && p < |run[b - 1].procs| && run[b - 1].procs[p].pc == Idle
    && p < |run[b].procs| && run[b].procs[p].pc == Get
    && forall y {:trigger InCreate(run, y, p, v)} :: b <= y <= x ==> InCreate(run, y, p, v)
  }

  lemma {:induction false} Created(n: nat, run: seq<Sys>, x: nat, p: nat)
    requires Run(n, run) && x < |run| && p < |run[x].procs| && Creating(run[x].procs[p].pc)
    ensures exists b: nat :: CreateSince(run, b, x, p, run[x].procs[p].initval)
  {
    hide StepOf, CrashOf;
    var v := run[x].procs[p].initval;
    if x > 0 {
      assert NextAt(run, x);
      var q := Mover(run, x);
      ValueKept(run[x - 1], run[x], q);
      if q == p && run[x - 1].procs[p].pc == Idle {
        assert InCreate(run, x, p, v);
        assert CreateSince(run, x, x, p, v);
      } else {
        Created(n, run, x - 1, p);
        var b: nat :| CreateSince(run, b, x - 1, p, v);
        forall y | b <= y <= x ensures InCreate(run, y, p, v) {
          if y < x { assert InCreate(run, y, p, v); }
        }
        assert CreateSince(run, b, x, p, v);
      }
    }
  }

  lemma Mover(run: seq<Sys>, x: nat) returns (p: nat)
    requires 0 < x < |run| && NextAt(run, x)
    ensures p < |run[x - 1].procs| == |run[x - 1].adj|
    ensures StepOf(run[x - 1], run[x], p) || CrashOf(run[x - 1], run[x], p)
  {
    p :| p < |run[x - 1].procs| == |run[x - 1].adj|
      && (StepOf(run[x - 1], run[x], p) || CrashOf(run[x - 1], run[x], p));
  }

  /** In the step to state j process p sets [0], to the value its sem_create was called with in state b. */
  ghost predicate Sets0(run: seq<Sys>, b: nat, j: nat, p: nat, v: int) {
    && 0 < j < |run| && p < |run[j - 1].procs| && p < |run[j].procs|
    && run[j - 1].procs[p].pc == Init0 && !Stale(run[j - 1], p) && run[j].procs[p].pc == Init1
    && run[j].id == run[j - 1].id && run[j].val.sem == run[j].base.sem == v
    && CreateSince(run, b, j - 1, p, v)
  }

  /** The value the present set was last set to was the argument of the create that set it, and the set is still the
      same. */
  ghost predicate SetBy(run: seq<Sys>, i: nat) {
    exists b: nat, j: nat, p: nat {:trigger Sets0(run, b, j, p, run[i].base.sem)} ::
      i < |run| && j <= i && Sets0(run, b, j, p, run[i].base.sem) && run[j].id == run[i].id
  }

  /** Somebody has set [0], and is about to set [1] or has. */
  ghost predicate HasValue(s: Sys) {
    s.live && (s.base.count == BIGCOUNT
               || exists q {:trigger s.procs[q]} ::
                 0 <= q < |s.procs| && s.procs[q].pc == Init1 && s.procs[q].id == s.id)
  }

  /** What a step can change of the set's value: it is a new set, or it is the call that sets [0]. */
  lemma SetOrKept(s: Sys, s': Sys, p: nat)
    requires Inv(s) && p < |s.procs| && (StepOf(s, s', p) || CrashOf(s, s', p)) && HasValue(s')
    ensures
      || (s.procs[p].pc == Init0 && !Stale(s, p) && s'.procs[p].pc == Init1 && s'.id == s.id
          && s'.val.sem == s'.base.sem == s.procs[p].initval)
      || (HasValue(s) && s'.id == s.id && s'.base.sem == s.base.sem)
  {
    hide Apply, Adjust, Undone, Cleared, Inv;
    IdsBelow(s);
    ValueKept(s, s', p);
    if Step(s, p) == Some(s') {
      match s.procs[p].pc
      case Get =>
      case Init0 | Init1 =>
      case Remove =>
      case _ =>
    }
  }

  lemma IdsBelow(s: Sys)
    requires Inv(s)
    ensures Shaped(s) && forall q {:trigger s.procs[q]} :: 0 <= q < |s.procs| ==>
              s.procs[q].id <= s.id && (s.procs[q].pc == Init1 ==> s.live)
  {
    forall q | 0 <= q < |s.procs| ensures s.procs[q].id <= s.id && (s.procs[q].pc == Init1 ==> s.live) {
      assert Knows(s, q);
    }
  }

  /** Whenever a set has its count, its semaphore was set to the value with which that sem_create was called whose two
      calls initialised this set; no other create, and no earlier set, has had a part in it. */
  lemma {:induction false} InitialisedBy(n: nat, run: seq<Sys>, i: nat)
    requires Run(n, run) && i < |run| && HasValue(run[i])
    ensures SetBy(run, i)
  {
    if i > 0 {
      hide StepOf, CrashOf, Inv, HasValue;
      RunKeeps(n, run, i - 1);
      assert NextAt(run, i);
      var p := Mover(run, i);
      assert p < |run[i].procs| by { ValueKept(run[i - 1], run[i], p); }
      SetOrKept(run[i - 1], run[i], p);
      if run[i - 1].procs[p].pc == Init0 && run[i].procs[p].pc == Init1 {
        Created(n, run, i - 1, p);
        var v := run[i - 1].procs[p].initval;
        var b: nat :| CreateSince(run, b, i - 1, p, v);
        assert Sets0(run, b, i, p, run[i].base.sem);
      } else {
        InitialisedBy(n, run, i - 1);
        var b: nat, j: nat, q: nat :| j <= i - 1 && Sets0(run, b, j, q, run[i - 1].base.sem)
                                      && run[j].id == run[i - 1].id;
        assert Sets0(run, b, j, q, run[i].base.sem);
      }
    }
  }

  /** With the lock held, finishing a create or a close never waits. */
  lemma HolderGoesOn(n: nat, run: seq<Sys>, i: nat, p: nat)
    requires Run(n, run) && i < |run| && p < |run[i].procs| == |run[i].adj| && Holds(run[i].procs[p].pc)
    ensures Step(run[i], p).Some?
  {
    var s := run[i];
    RunKeeps(n, run, i);
    assert Knows(s, p) && Few(s);
    Reading(s);
    LockIsOne(s, p);
    EndCreateTable(s.val, s.adj[p]);
    UnlockTable(s.val, s.adj[p]);
  }

  /** A create or a close waits if and only if it has asked for the lock of a set that is still there, and somebody
      holds it. */
  lemma WaitsOnlyFor(n: nat, run: seq<Sys>, i: nat, p: nat)
    requires Run(n, run) && i < |run| && p < |run[i].procs| == |run[i].adj|
    requires run[i].procs[p].pc != Idle && run[i].procs[p].pc != Gone
    ensures Step(run[i], p) == None <==>
            && run[i].procs[p].pc in {LockWait, CloseWait} && !Stale(run[i], p)
            && exists q :: 0 <= q < |run[i].procs| && Holds(run[i].procs[q].pc)
  {
    var s := run[i];
    if Holds(s.procs[p].pc) {
      HolderGoesOn(n, run, i, p);
    } else if !Stale(s, p) {
      CountersTrue(n, run, i);
      assert s.val.count >= 0 by { RunKeeps(n, run, i); }
      LockTable(s.val, s.adj[p]);
      CloseTable(s.val, s.adj[p]);
    }
  }

  /** A death at any step gives back what the process had taken. */
  lemma DeathReleases(n: nat, run: seq<Sys>, i: nat, p: nat)
    requires Run(n, run) && i < |run| && p < |run[i].procs| == |run[i].adj| && run[i].live
    ensures var s, s' := run[i], Dead(run[i], p);
            && s'.val.count == s.val.count + s.procs[p].opens
            && s'.val.lock == (if Holds(s.procs[p].pc) then 0 else s.val.lock)
            && s'.live && Inv(s')
  {
    RunKeeps(n, run, i);
    AfterDeath(run[i], p);
  }

  // ---- The semaphore member ----

  /** Every call of the interface keeps value plus pending undo of [0] at the value it was initialised to. */
  lemma CallsConserve(s: Sys, p: nat, s': Sys)
    requires Inv(s) && s.live && Conserved(s, 0) && p < |s.procs| && s'.live
    requires StepOf(s, s', p) && s'.procs[p].pc != Gone
    ensures Conserved(s', 0)
  {
    var me := s.procs[p];
    assert Knows(s, p);
    if Step(s, p) == Some(s') {
      StepConserves(s, p, s');
    } else if me.opens > 0 && exists amount :: amount != 0 && Operate(s, p, amount) == Some(s') {
      var amount :| amount != 0 && Operate(s, p, amount) == Some(s');
      DidConserves(s, p, Apply(s.val, OpOp(amount)).value, OpOp(amount), me, 0);
    }
  }

  lemma StepConserves(s: Sys, p: nat, s': Sys)
    requires Inv(s) && s.live && Conserved(s, 0) && p < |s.procs| && s'.live
    requires Step(s, p) == Some(s') && s'.procs[p].pc != Gone
    ensures Conserved(s', 0)
  {
    assert Knows(s, p);
    match s.procs[p].pc
    case Lock | LockWait =>
      if !Stale(s, p) && Apply(s.val, OP_LOCK).Some? {
        DidConserves(s, p, Apply(s.val, OP_LOCK).value, OP_LOCK, s'.procs[p], 0);
      }
    case EndCreate => DidConserves(s, p, Apply(s.val, OP_ENDCREATE).value, OP_ENDCREATE, s'.procs[p], 0);
    case Close | CloseWait =>
      if Apply(s.val, OP_CLOSE).Some? { DidConserves(s, p, Apply(s.val, OP_CLOSE).value, OP_CLOSE, s'.procs[p], 0); }
    case Unlock => DidConserves(s, p, Apply(s.val, OP_UNLOCK).value, OP_UNLOCK, s'.procs[p], 0);
    case Init0 => TotalCleared(s.adj, 0, 0);
    case Init1 => TotalCleared(s.adj, 1, 0);
    case _ =>
  }

  /** A death keeps it too exactly when the semaphore is not below what the process still owes: the kernel stops at
      zero. The amount is what the process signalled minus what it waited for. */
  lemma DeathConservesIff(s: Sys, p: nat)
    requires Inv(s) && s.live && Conserved(s, 0) && p < |s.procs|
    ensures Conserved(Dead(s, p), 0) <==> s.val.sem >= -s.adj[p].sem
  {
    TotalPut(s.adj, p, ZEROS, 0);
  }

  /** Process p's step from run[i - 1], when it is a death, finds the semaphore high enough. */
  ghost predicate DeathsCovered(run: seq<Sys>, i: nat) {
    0 < i < |run| ==>
      var s, s' := run[i - 1], run[i];
      forall p: nat {:trigger s.procs[p]} :: p < |s.procs| == |s.adj| == |s'.procs| ==>
        s'.procs[p].pc == Gone && s.procs[p].pc != Gone ==> s.val.sem >= -s.adj[p].sem
  }

  lemma SameProcesses(s: Sys, p: nat, s': Sys)
    requires p < |s.procs| == |s.adj| && (StepOf(s, s', p) || CrashOf(s, s', p))
    ensures |s'.procs| == |s.procs|
  {
    hide Apply, Adjust, Undone, Cleared;
    if Step(s, p) == Some(s') {
      match s.procs[p].pc
      case Get =>
      case Init0 | Init1 =>
      case Remove =>
      case _ =>
    }
  }

  lemma TakenBy(run: seq<Sys>, i: nat) returns (p: nat)
    requires 0 < i < |run| && NextAt(run, i) && DeathsCovered(run, i)
    ensures p < |run[i - 1].procs| == |run[i].procs| == |run[i - 1].adj|
    ensures StepOf(run[i - 1], run[i], p) || CrashOf(run[i - 1], run[i], p)
    ensures run[i].procs[p].pc == Gone && run[i - 1].procs[p].pc != Gone ==>
            run[i - 1].val.sem >= -run[i - 1].adj[p].sem
  {
    var s, s' := run[i - 1], run[i];
    p :| p < |s.procs| == |s.adj| && (StepOf(s, s', p) || CrashOf(s, s', p));
    SameProcesses(s, p, s');
    assert s.procs[p].pc == s.procs[p].pc;
  }

  /** In every run whose deaths are of that kind, value plus pending undo of [0] is always the initial value. */
  lemma {:induction false} SemaphoreConserved(n: nat, run: seq<Sys>, i: nat)
    requires Run(n, run) && i < |run| && forall j {:trigger DeathsCovered(run, j)} :: 0 < j < |run| ==>
             DeathsCovered(run, j)
    ensures run[i].live ==> Conserved(run[i], 0)
  {
    if i > 0 {
      hide StepOf, CrashOf, Conserved, Inv;
      SemaphoreConserved(n, run, i - 1);
      RunKeeps(n, run, i - 1);
      assert NextAt(run, i) && DeathsCovered(run, i);
      hide NextAt, DeathsCovered, Few;
      var p := TakenBy(run, i);
      AnyStepConserves(run[i - 1], p, run[i]);
    }
  }

  lemma AnyStepConserves(s: Sys, p: nat, s': Sys)
    requires Inv(s) && (s.live ==> Conserved(s, 0)) && p < |s.procs| && (StepOf(s, s', p) || CrashOf(s, s', p))
    requires s'.procs[p].pc == Gone && s.procs[p].pc != Gone ==> s.val.sem >= -s.adj[p].sem
    ensures s'.live ==> Conserved(s', 0)
  {
    assert Knows(s, p);
    if s'.live && s.live {
      if s' == Dead(s, p) && s.procs[p].pc != Gone { DeathConservesIff(s, p); } else { CallsConserve(s, p, s'); }
    } else if s'.live {
      TotalZero(s'.adj, 0);
    }
  }

  // ---- A run in which the semaphore is not conserved ----

  function Two(val: Members, a: Members, b: Members, me: Proc, you: Proc, base: Members): Sys {
    Sys(true, 1, val, [a, b], [me, you], base)
  }

  function User(pc: Pc, semval: int, opens: nat): Proc { Proc(pc, 1, semval, 0, opens) }

  /** A creates the semaphore with 0, B opens it, A signals, B waits, and A exits: the kernel cannot take A's signal
      back, B's wait stays, and the semaphore is worth one more than it was set to. */
  function Shot(i: nat): Sys
    requires i < 16
  {
    var out := Proc(Idle, 0, 0, 0, 0);
    var base := Members(0, BIGCOUNT, 0);
    var held, open := Members(0, 0, -1), Members(0, 1, 0);
    var a, b := User(Idle, 0, 1), User(Idle, 9999, 1);
    if i == 0 then Sys(false, 0, ZEROS, [ZEROS, ZEROS], [out, out], ZEROS)
    else if i == 1 then Sys(false, 0, ZEROS, [ZEROS, ZEROS], [out.(pc := Get), out], ZEROS)
    else if i == 2 then Two(ZEROS, ZEROS, ZEROS, User(Lock, 0, 0), out, ZEROS)
    else if i == 3 then Two(Members(0, 0, 1), held, ZEROS, User(Read, 0, 0), out, ZEROS)
    else if i == 4 then Two(Members(0, 0, 1), held, ZEROS, User(Init0, 0, 0), out, ZEROS)
    else if i == 5 then Two(Members(0, 0, 1), held, ZEROS, User(Init1, 0, 0), out, ZEROS)
    else if i == 6 then Two(Members(0, BIGCOUNT, 1), held, ZEROS, User(EndCreate, 0, 0), out, base)
    else if i == 7 then Two(Members(0, 9999, 0), open, ZEROS, a, out, base)
    else if i == 8 then Two(Members(0, 9999, 0), open, ZEROS, a, out.(pc := Get), base)
    else if i == 9 then Two(Members(0, 9999, 0), open, ZEROS, a, User(Lock, 0, 0), base)
    else if i == 10 then Two(Members(0, 9999, 1), open, held, a, User(Read, 0, 0), base)
    else if i == 11 then Two(Members(0, 9999, 1), open, held, a, User(EndCreate, 9999, 0), base)
    else if i == 12 then Two(Members(0, 9998, 0), open, open, a, b, base)
    else if i == 13 then Two(Members(1, 9998, 0), open.(sem := -1), open, a, b, base)
    else if i == 14 then Two(Members(0, 9998, 0), open.(sem := -1), open.(sem := 1), a, b, base)
    else Two(Members(0, 9999, 0), ZEROS, open.(sem := 1), User(Gone, 0, 0), b, base)
  }

  function Story(): seq<Sys> { seq(16, i requires 0 <= i < 16 => Shot(i)) }

  /** The facts about pairs that a step of p from s to s' needs. */
  lemma Pair(s: Sys, s': Sys, p: nat, k: nat)
    requires |s.procs| == |s.adj| == |s'.procs| == |s'.adj| == 2 && p < 2 && k < 3
    ensures s.adj[p := s'.adj[p]] == if p == 0 then [s'.adj[0], s.adj[1]] else [s.adj[0], s'.adj[1]]
    ensures s.procs[p := s'.procs[p]] == if p == 0 then [s'.procs[0], s.procs[1]] else [s.procs[0], s'.procs[1]]
    ensures AllZero(2) == [ZEROS, ZEROS] && Cleared(s.adj, k) == [s.adj[0].With(k, 0), s.adj[1].With(k, 0)]
  {
  }

  lemma Gets(i: nat)
    requires i in {2, 9}
    ensures Step(Shot(i - 1), if i == 2 then 0 else 1) == Some(Shot(i))
  {
    Pair(Shot(i - 1), Shot(i), if i == 2 then 0 else 1, 0);
  }

  lemma Locks(i: nat)
    requires i in {3, 10}
    ensures Step(Shot(i - 1), if i == 3 then 0 else 1) == Some(Shot(i))
  {
    var p: nat := if i == 3 then 0 else 1;
    LockTable(Shot(i - 1).val, Shot(i - 1).adj[p]);
    Pair(Shot(i - 1), Shot(i), p, 0);
  }

  lemma Reads(i: nat)
    requires i in {4, 11}
    ensures Step(Shot(i - 1), if i == 4 then 0 else 1) == Some(Shot(i))
  {
    Pair(Shot(i - 1), Shot(i), if i == 4 then 0 else 1, 0);
  }

  lemma Sets(i: nat)
    requires i in {5, 6}
    ensures Step(Shot(i - 1), 0) == Some(Shot(i))
  {
    Pair(Shot(i - 1), Shot(i), 0, i - 5);
  }

  lemma Ends(i: nat)
    requires i in {7, 12}
    ensures Step(Shot(i - 1), if i == 7 then 0 else 1) == Some(Shot(i))
  {
    var p: nat := if i == 7 then 0 else 1;
    EndCreateTable(Shot(i - 1).val, Shot(i - 1).adj[p]);
    Pair(Shot(i - 1), Shot(i), p, 0);
  }

  lemma Operations(i: nat)
    requires i in {13, 14}
    ensures Operate(Shot(i - 1), i - 13, if i == 13 then 1 else -1) == Some(Shot(i))
  {
    OpTable(Shot(i - 1).val, Shot(i - 1).adj[i - 13], if i == 13 then 1 else -1);
    Pair(Shot(i - 1), Shot(i), i - 13, 0);
  }

  lemma Others()
    ensures StepOf(Shot(0), Shot(1), 0) && StepOf(Shot(7), Shot(8), 1) && CrashOf(Shot(14), Shot(15), 0)
  {
    Pair(Shot(0), Shot(1), 0, 0);
    Pair(Shot(7), Shot(8), 1, 0);
    Pair(Shot(14), Shot(15), 0, 0);
    assert Shot(1) == Set(Shot(0), 0, Shot(0).procs[0].(pc := Get, initval := 0));
    assert Shot(8) == Set(Shot(7), 1, Shot(7).procs[1].(pc := Get, initval := 0));
  }

  lemma StoryMove(i: nat)
    requires 0 < i <= 15
    ensures var p := if 8 <= i <= 12 || i == 14 then 1 else 0;
            |Shot(i - 1).procs| == |Shot(i - 1).adj| == 2
            && (StepOf(Shot(i - 1), Shot(i), p) || CrashOf(Shot(i - 1), Shot(i), p))
  {
    if i in {2, 9} { Gets(i); }
    else if i in {3, 10} { Locks(i); }
    else if i in {4, 11} { Reads(i); }
    else if i in {5, 6} { Sets(i); }
    else if i in {7, 12} { Ends(i); }
    else if i in {13, 14} { Operations(i); }
    else { Others(); }
  }

  lemma StoryHappens(i: nat)
    requires 0 < i <= 15
    ensures NextAt(Story(), i)
  {
    StoryMove(i);
    var p: nat := if 8 <= i <= 12 || i == 14 then 1 else 0;
    assert Story()[i - 1] == Shot(i - 1) && Story()[i] == Shot(i);
    assert Story()[i - 1].procs[p] == Shot(i - 1).procs[p];
  }

  lemma OpensOfTwo(a: Proc, b: Proc)
    ensures Opens([a, b]) == a.opens + b.opens
  {
    var none: seq<Proc> := [];
    assert [a][..0] == none && Opens(none) == 0;
    assert Opens([a]) == Opens([a][..0]) + a.opens;
    assert [a, b][..1] == [a];
  }

  /** The story, as a run of the model: the semaphore was set to 0, and ends one too high. */
  lemma SignalCanOutliveItsProcess()
    ensures Run(2, Story()) && Story()[15].live && Story()[15].base.sem == 0
    ensures Story()[15].val.sem + Total(Story()[15].adj, 0) == 1
  {
    var run := Story();
    forall i | 0 < i < |run| ensures NextAt(run, i) { StoryHappens(i); }
    forall i | 0 <= i < |run| ensures Few(run[i]) {
      var a, b := run[i].procs[0], run[i].procs[1];
      assert run[i].procs == [a, b];
      OpensOfTwo(a, b);
    }
    var last := run[15].adj;
    assert last[..1][..0] == [] && Total(last[..1], 0) == 0;
  }

  // ---- A run in which a waiting process fails ----

  /** Until B has looked up the set as before; then A closes, B has to wait for the lock, and A, the last to have the
      set open, removes it under the waiting B. */
  function Frame(i: nat): Sys
    requires i < 16
  {
    var base, closing := Members(0, BIGCOUNT, 0), Members(0, BIGCOUNT, 1);
    var held := Members(0, 0, -1);
    var b := User(LockWait, 0, 0);
    if i < 10 then Shot(i)
    else if i == 10 then Two(Members(0, 9999, 0), Members(0, 1, 0), ZEROS, User(Close, 0, 1), User(Lock, 0, 0), base)
    else if i == 11 then Two(closing, held, ZEROS, User(CloseRead, 0, 0), User(Lock, 0, 0), base)
    else if i == 12 then Two(closing, held, ZEROS, User(CloseRead, 0, 0), b, base)
    else if i == 13 then Two(closing, held, ZEROS, User(Remove, BIGCOUNT, 0), b, base)
    else if i == 14 then Sys(false, 1, closing, [ZEROS, ZEROS], [User(Idle, BIGCOUNT, 0), b], base)
    else Sys(false, 1, closing, [ZEROS, ZEROS], [User(Idle, BIGCOUNT, 0), User(Gone, 0, 0)], base)
  }

  function Film(): seq<Sys> { seq(16, i requires 0 <= i < 16 => Frame(i)) }

  lemma Closes()
    ensures StepOf(Frame(9), Frame(10), 0) && Step(Frame(10), 0) == Some(Frame(11))
  {
    Pair(Frame(9), Frame(10), 0, 0);
    assert Frame(10) == Set(Frame(9), 0, Frame(9).procs[0].(pc := Close));
    Pair(Frame(10), Frame(11), 0, 0);
    CloseTable(Frame(10).val, Frame(10).adj[0]);
  }

  lemma Waits()
    ensures Step(Frame(11), 1) == Some(Frame(12)) && Step(Frame(12), 0) == Some(Frame(13))
  {
    Pair(Frame(11), Frame(12), 1, 0);
    LockTable(Frame(11).val, Frame(11).adj[1]);
    Pair(Frame(12), Frame(13), 0, 0);
  }

  lemma Fails()
    ensures Step(Frame(13), 0) == Some(Frame(14)) && Step(Frame(14), 1) == Some(Frame(15))
  {
    Pair(Frame(13), Frame(14), 0, 0);
    Pair(Frame(14), Frame(15), 1, 0);
  }

  lemma FilmMove(i: nat)
    requires 0 < i <= 15
    ensures NextAt(Film(), i)
  {
    var p: nat := if i in {8, 9, 12, 15} then 1 else 0;
    assert Film()[i - 1] == Frame(i - 1) && Film()[i] == Frame(i);
    assert Film()[i - 1].procs[p] == Frame(i - 1).procs[p];
    if i < 10 { StoryMove(i); }
    else if i < 12 { Closes(); }
    else if i < 14 { Waits(); }
    else { Fails(); }
  }

  /** So the failing call does happen: B has done nothing but to ask for the set, and fails. */
  lemma WaiterFails()
    ensures Run(2, Film()) && Film()[14].procs[1].pc == LockWait && Stale(Film()[14], 1)
    ensures Step(Film()[14], 1) == Some(Film()[15]) && Film()[15].procs[1].pc == Gone
  {
    var run := Film();
    forall i | 0 < i < |run| ensures NextAt(run, i) { FilmMove(i); }
    forall i | 0 <= i < |run| ensures Few(run[i]) {
      var a, b := run[i].procs[0], run[i].procs[1];
      assert run[i].procs == [a, b];
      OpensOfTwo(a, b);
    }
    Fails();
  }
}
