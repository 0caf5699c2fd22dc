/** Whole histories of one process on a new database. */
module DbHistory {
  import opened CText
  import opened DbFormat
  import opened DbSpec
  import opened DbSeparators
  import opened DbLibrary

  /** A store with an invalid flag comes back before it looks at the database. */
  predicate Looks(op: Op) { op.StoreOp? ==> op.flag != BadFlag }

  /** One call; it aborts when its chain is stuck, or when it is a store that reaches a limit. */
  method Apply(db: Db, op: Op) returns (r: Result<Answer>)
    requires db.Valid()
    modifies db
    ensures r.Done? ==> db.Valid() && r.value == MapAnswer(old(db.Entries), op)
    ensures r.Done? ==> db.Entries == MapAfter(old(db.Entries), op)
    ensures r.Done? ==> |db.idxFile| <= |old(db.idxFile)| + REC_MAX && |db.datFile| <= |old(db.datFile)| + DATLEN_MAX
    ensures Looks(op) && Stuck(db.hash, old(db.Entries), op.key) ==> r.Aborted?
    ensures r.Aborted? ==> Looks(op)
    ensures r.Aborted? && !Stuck(db.hash, old(db.Entries), op.key) ==>
              op.StoreOp? && !Fits(|old(db.idxFile)|, |old(db.datFile)|, op.key, op.data)
  {
    match op {
      case FetchOp(key) =>
        var data := db.Fetch(key);
        return if data.Done? then Done(Found(data.value)) else Aborted;
      case DeleteOp(key) =>
        var rc := db.Delete(key);
        return if rc.Done? then Done(Rc(rc.value)) else Aborted;
      case StoreOp(key, data, flag) =>
        var rc := db.Store(key, data, flag);
        return if rc.Done? then Done(Rc(rc.value)) else Aborted;
    }
  }

  lemma Extend(ops: seq<Op>, answers: seq<Answer>, a: Answer)
    requires MapAnswers(ops, answers) && |answers| < |ops|
    requires a == MapAnswer(MapRun(ops[..|answers|]), ops[|answers|])
    ensures MapAnswers(ops, answers + [a])
    ensures MapRun(ops[..|answers| + 1]) == MapAfter(MapRun(ops[..|answers|]), ops[|answers|])
  {
    var n := |answers|;
    assert ops[..n + 1][..n] == ops[..n];
  }

  /** The i-th call finds a key with a separator on its chain. */
  ghost predicate StuckAt(ops: seq<Op>, i: nat)
    requires i < |ops|
  {
    Looks(ops[i]) && Stuck(Hash, MapRun(ops[..i]), ops[i].key)
  }

  /** Every sequence of calls on a new database gets exactly the answers of a plain map, whatever the keys. It ends
      early only at a call whose chain is stuck, where it always ends, or at a store that does not fit: data or record
      length out of range, or the index file beyond PTR_MAX, to which each earlier call has brought it at most one
      longest record nearer. */
  method RunAll(ops: seq<Op>) returns (answers: seq<Answer>, idxLen: nat, datLen: nat)
    ensures MapAnswers(ops, answers)
    ensures forall i :: 0 <= i < |answers| ==> !StuckAt(ops, i)
    ensures |answers| < |ops| && !StuckAt(ops, |answers|) ==>
              var op := ops[|answers|];
              op.StoreOp? && !Fits(idxLen, datLen, op.key, op.data)
    ensures idxLen <= FIRST_REC + |answers| * REC_MAX && datLen <= |answers| * DATLEN_MAX
  {
    hide MapAnswer, MapAfter, Looks, Stuck, Fits;
    HashInTable();
    var db := new Db(Hash);
    answers := [];
    idxLen, datLen := |db.idxFile|, |db.datFile|;
    while |answers| < |ops|
      invariant db.Valid() && fresh(db) && db.hash == Hash
      invariant |db.idxFile| <= FIRST_REC + |answers| * REC_MAX && |db.datFile| <= |answers| * DATLEN_MAX
      invariant idxLen <= FIRST_REC + |answers| * REC_MAX && datLen <= |answers| * DATLEN_MAX
      invariant MapAnswers(ops, answers) && db.Entries == MapRun(ops[..|answers|])
      invariant forall i :: 0 <= i < |answers| ==> !StuckAt(ops, i)
      decreases |ops| - |answers|
    {
      hide MapRun, MapAnswers;
      var op := ops[|answers|];
      assert StuckAt(ops, |answers|) <==> Looks(op) && Stuck(Hash, db.Entries, op.key);
      hide StuckAt;
      idxLen, datLen := |db.idxFile|, |db.datFile|;
      var r := Apply(db, op);
      if r.Aborted? { return; }
      assert |answers + [r.value]| == |answers| + 1;
      Extend(ops, answers, r.value);
      answers := answers + [r.value];
    }
  }

  /** Once a chain is stuck it stays so: whatever calls still return, they do not touch it. */
  lemma StuckForGood(hash: Hasher, m: Entries, op: Op, key: CString)
    requires Stuck(hash, m, key) && !(Looks(op) && Stuck(hash, m, op.key))
    ensures Stuck(hash, MapAfter(m, op), key)
  {
    var d :| d in m && SEP in d && hash(d) == hash(key);
    if Looks(op) { assert hash(op.key) != hash(key); }
    assert d in MapAfter(m, op);
  }

  lemma HashInTable()
    ensures InTable(Hash)
  {
  }
}
