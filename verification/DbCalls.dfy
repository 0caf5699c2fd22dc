/** The history of a run is made of its calls: each entry was made by one call, between its beginning and its return. */
module DbCalls {
  import opened Options
  import opened DbFormat
  import opened DbSpec
  import opened DbProcesses
  import opened DbInvariant
  import opened DbMoves
  import opened DbInterleaving

  ghost predicate Busy(run: seq<Sys>, x: nat, p: nat, op: Op) {
    x < |run| && p < |run[x].procs| && InCall(run[x].procs[p].pc) && run[x].procs[p].op == op
  }

  /** From state b on, and up to state x, process p is in one call, for op. */
  ghost predicate CallSince(run: seq<Sys>, b: nat, x: nat, p: nat, op: Op) {
    && 0 < b <= x < |run| && p < |run[b - 1].procs| && run[b - 1].procs[p].pc == Idle
    && p < |run[b].procs| && run[b].procs[p].pc == LockChain
    && forall y {:trigger Busy(run, y, p, op)} :: b <= y <= x ==> Busy(run, y, p, op)
  }

  /** In the step to state e process p unlocks its chain and returns, with answer a. */
  ghost predicate Returns(run: seq<Sys>, e: nat, p: nat, op: Op, a: Answer) {
    && 0 < e < |run| && p < |run[e - 1].procs| && p < |run[e].procs|
    && run[e - 1].procs[p].pc == Unlock && run[e].procs[p].pc == Idle
    && run[e - 1].procs[p].op == op && run[e - 1].procs[p].res == a
    && run[e].hist == run[e - 1].hist + [op] && run[e].answers == run[e - 1].answers + [a]
  }

  /** Whoever moved, it went on with its call, or was idle and began one or a scan; the others stayed as they were. */
  lemma OneMoves(hash: Hasher, s: Sys, s': Sys) returns (p: nat)
    requires Next(hash, s, s')
    ensures p < |s.procs| == |s'.procs| && forall q :: 0 <= q < |s.procs| && q != p ==> s'.procs[q] == s.procs[q]
    ensures Moves(s, s', p)
            || (s.procs[p].pc == Idle && s'.procs[p].pc in {Idle, LockChain, ScanLock}
                && s'.hist == s.hist && s'.answers == s.answers)
  {
    hide Step;
    p :| p < |s.procs| && NextOf(hash, s, s', p);
    if Enabled(hash, s, p) && s' == Step(hash, s, p) { StepMoves(hash, s, p); }
  }

  lemma GoesOn(run: seq<Sys>, b: nat, x: nat, p: nat, op: Op)
    requires 0 < x < |run| && CallSince(run, b, x - 1, p, op) && Busy(run, x, p, op)
    ensures CallSince(run, b, x, p, op)
  {
    forall y | b <= y <= x ensures Busy(run, y, p, op) {
      if y < x { assert Busy(run, y, p, op); }
    }
  }

  lemma {:induction false} Began(hash: Hasher, n: nat, run: seq<Sys>, x: nat, p: nat)
    requires Run(hash, n, run) && x < |run| && p < |run[x].procs| && InCall(run[x].procs[p].pc)
    ensures exists b: nat :: CallSince(run, b, x, p, run[x].procs[p].op)
  {
    hide Next;
    var op := run[x].procs[p].op;
    if x > 0 {
      assert NextAt(hash, run, x);
      var q := OneMoves(hash, run[x - 1], run[x]);
      if q == p && run[x - 1].procs[p].pc == Idle {
        assert Busy(run, x, p, op);
        assert CallSince(run, x, x, p, op);
      } else {
        Began(hash, n, run, x - 1, p);
        assert run[x - 1].procs[p].op == op;
        var b: nat :| CallSince(run, b, x - 1, p, op);
        GoesOn(run, b, x, p, op);
      }
    }
  }

  /** Entry k was made in the step to some state e. */
  ghost predicate EnteredAt(run: seq<Sys>, e: nat, p: nat, k: nat, op: Op, a: Answer) {
    Returns(run, e, p, op, a) && |run[e - 1].hist| == |run[e - 1].answers| == k
  }

  lemma {:induction false} Entered(hash: Hasher, n: nat, run: seq<Sys>, i: nat, k: nat)
    requires Run(hash, n, run) && i < |run| && k < |run[i].hist|
    ensures |run[i].answers| == |run[i].hist|
    ensures exists e: nat, p: nat :: e <= i && EnteredAt(run, e, p, k, run[i].hist[k], run[i].answers[k])
  {
    hide Next;
    if i > 0 {
      assert NextAt(hash, run, i);
      var q := OneMoves(hash, run[i - 1], run[i]);
      AsManyAnswers(hash, n, run, i - 1);
      if k < |run[i - 1].hist| {
        Entered(hash, n, run, i - 1, k);
        assert run[i].hist[k] == run[i - 1].hist[k] && run[i].answers[k] == run[i - 1].answers[k];
      } else {
        assert Returns(run, i, q, run[i].hist[k], run[i].answers[k]);
        assert EnteredAt(run, i, q, k, run[i].hist[k], run[i].answers[k]);
      }
    }
  }

  lemma {:induction false} AsManyAnswers(hash: Hasher, n: nat, run: seq<Sys>, i: nat)
    requires Run(hash, n, run) && i < |run|
    ensures |run[i].answers| == |run[i].hist|
  {
    hide Next;
    if i > 0 {
      assert NextAt(hash, run, i);
      var q := OneMoves(hash, run[i - 1], run[i]);
      AsManyAnswers(hash, n, run, i - 1);
    }
  }

  /** The call that began in state b made entry k when it returned in state e. */
  ghost predicate EntryOf(run: seq<Sys>, b: nat, e: nat, p: nat, k: nat, op: Op, a: Answer) {
    EnteredAt(run, e, p, k, op, a) && CallSince(run, b, e - 1, p, op)
  }

  /** Each entry of the history is one call of one process, entered and answered in the step in which that call unlocks
      its chain and returns. So calls take effect in the order of the history, each within its own duration. */
  lemma HistoryIsCalls(hash: Hasher, n: nat, run: seq<Sys>, i: nat, k: nat)
    requires Run(hash, n, run) && i < |run| && k < |run[i].hist|
    ensures |run[i].answers| == |run[i].hist|
    ensures var op, a := run[i].hist[k], run[i].answers[k];
            exists b: nat, e: nat, p: nat :: e <= i && EntryOf(run, b, e, p, k, op, a)
  {
    hide Run, Moves;
    Entered(hash, n, run, i, k);
    var op, a := run[i].hist[k], run[i].answers[k];
    var e: nat, p: nat :| e <= i && EnteredAt(run, e, p, k, op, a);
    Began(hash, n, run, e - 1, p);
    var b: nat :| CallSince(run, b, e - 1, p, op);
    assert EntryOf(run, b, e, p, k, op, a);
  }
}
