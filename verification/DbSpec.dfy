/** What the database promises, told of a plain map from keys to data. */
module DbSpec {
  import opened Options
  import opened CText

  /** A call returns, or it aborts the program (err_dump, err_quit). */
  datatype Result<T> = Done(value: T) | Aborted

  datatype Flag = DbInsert | DbReplace | DbStore | BadFlag

  datatype Op = FetchOp(key: CString) | DeleteOp(key: CString) | StoreOp(key: CString, data: CString, flag: Flag)

  datatype Answer = Found(data: Option<CString>) | Rc(code: int)

  type Entries = map<CString, CString>

  /** What a plain map answers to a store, and becomes. */
  function MapStore(m: Entries, key: CString, data: CString, flag: Flag): (int, Entries) {
    if flag == BadFlag then (-1, m)
    else if key in m then
      if flag == DbInsert then (1, m) else (0, m[key := data])
    else if flag == DbReplace then (-1, m)
    else (0, m[key := data])
  }

  function MapAnswer(m: Entries, op: Op): Answer {
    match op
    case FetchOp(key) => Found(if key in m then Some(m[key]) else None)
    case DeleteOp(key) => Rc(if key in m then 0 else -1)
    case StoreOp(key, data, flag) => Rc(MapStore(m, key, data, flag).0)
  }

  function MapAfter(m: Entries, op: Op): Entries {
    match op
    case FetchOp(_) => m
    case DeleteOp(key) => m - {key}
    case StoreOp(key, data, flag) => MapStore(m, key, data, flag).1
  }

  /** The map after a sequence of operations, starting with no entries. */
  function MapRun(ops: seq<Op>): Entries {
    if ops == [] then map[] else MapAfter(MapRun(ops[..|ops| - 1]), ops[|ops| - 1])
  }

  /** Each answer is the plain map's at that point of the sequence. */
  ghost predicate MapAnswers(ops: seq<Op>, answers: seq<Answer>) {
    && |answers| <= |ops|
    && forall i :: 0 <= i < |answers| ==> answers[i] == MapAnswer(MapRun(ops[..i]), ops[i])
  }

  // ---- What that comes to ----

  /** An insert needs the key to be absent, a replace needs it to be there. A store answers 0 exactly when its flag is
      valid and this is so, 1 exactly for an insert of a key that is there, and -1 otherwise; with 0 it writes, and
      else it changes nothing. */
  lemma StoreMeans(m: Entries, key: CString, data: CString, flag: Flag)
    ensures var (a, m') := (MapAnswer(m, StoreOp(key, data, flag)), MapAfter(m, StoreOp(key, data, flag)));
            && (a == Rc(0) <==> flag != BadFlag && (flag == DbInsert ==> key !in m) && (flag == DbReplace ==> key in m))
            && (a == Rc(1) <==> flag == DbInsert && key in m)
            && (a == Rc(-1) <==> flag == BadFlag || (flag == DbReplace && key !in m))
            && m' == if a == Rc(0) then m[key := data] else m
  {
  }

  /** A fetch finds what is there and changes nothing; a delete takes its key out and says whether it was there. */
  lemma OthersMean(m: Entries, key: CString)
    ensures MapAfter(m, FetchOp(key)) == m && MapAfter(m, DeleteOp(key)) == m - {key}
    ensures MapAnswer(m, FetchOp(key)) == Found(if key in m then Some(m[key]) else None)
    ensures MapAnswer(m, DeleteOp(key)) == Rc(if key in m then 0 else -1)
  {
  }

  /** The j-th call has written or removed the key. */
  predicate Touches(ops: seq<Op>, answers: seq<Answer>, j: nat, key: CString)
    requires j < |ops| <= |answers|
  {
    ops[j].key == key && (ops[j].DeleteOp? || (ops[j].StoreOp? && answers[j] == Rc(0)))
  }

  /** Told of the calls and their answers alone: of the calls before the k-th that have touched the key, the last one
      was a store of this data. */
  ghost predicate LastWrote(ops: seq<Op>, answers: seq<Answer>, k: nat, key: CString, data: CString)
    requires k <= |ops| <= |answers|
  {
    exists i :: 0 <= i < k && ops[i].StoreOp? && ops[i].data == data && Touches(ops, answers, i, key)
                && forall j {:trigger Touches(ops, answers, j, key)} :: i < j < k ==> !Touches(ops, answers, j, key)
  }

  /** Any history whose answers are the map's: what is there is what was written last and not removed since. */
  lemma {:induction false} LastWriteWins(ops: seq<Op>, answers: seq<Answer>, k: nat, key: CString, data: CString)
    requires MapAnswers(ops, answers) && |answers| == |ops| && k <= |ops|
    ensures var m := MapRun(ops[..k]);
            key in m && m[key] == data <==> LastWrote(ops, answers, k, key, data)
  {
    if k > 0 {
      LastWriteWins(ops, answers, k - 1, key, data);
      var op, m := ops[k - 1], MapRun(ops[..k - 1]);
      assert ops[..k][..k - 1] == ops[..k - 1];
      assert MapRun(ops[..k]) == MapAfter(m, op) && answers[k - 1] == MapAnswer(m, op);
      OneMore(ops, answers, k, key, data);
      hide LastWrote, MapRun, MapAnswers, MapAnswer, MapAfter;
      OneCall(m, op, key, data);
    }
  }

  lemma OneCall(m: Entries, op: Op, key: CString, data: CString)
    ensures var m' := MapAfter(m, op);
            key in m' && m'[key] == data <==>
              if op.key == key && (op.DeleteOp? || (op.StoreOp? && MapAnswer(m, op) == Rc(0)))
              then op.StoreOp? && op.data == data else key in m && m[key] == data
  {
    hide MapStore, MapAnswer, MapAfter;
    match op
    case StoreOp(key', data', flag) => StoreMeans(m, key', data', flag);
    case _ => OthersMean(m, op.key);
  }

  lemma OneMore(ops: seq<Op>, answers: seq<Answer>, k: nat, key: CString, data: CString)
    requires 0 < k <= |ops| <= |answers|
    ensures LastWrote(ops, answers, k, key, data) <==>
              if Touches(ops, answers, k - 1, key) then ops[k - 1].StoreOp? && ops[k - 1].data == data
              else LastWrote(ops, answers, k - 1, key, data)
  {
    if Touches(ops, answers, k - 1, key) {
      if ops[k - 1].StoreOp? && ops[k - 1].data == data { assert LastWrote(ops, answers, k, key, data); }
    } else if LastWrote(ops, answers, k - 1, key, data) {
      var i :| 0 <= i < k - 1 && ops[i].StoreOp? && ops[i].data == data && Touches(ops, answers, i, key)
               && forall j {:trigger Touches(ops, answers, j, key)} :: i < j < k - 1 ==> !Touches(ops, answers, j, key);
      assert LastWrote(ops, answers, k, key, data);
    }
  }

  /** Some call before the k-th has stored the key, and none has removed it since. */
  ghost predicate Present(ops: seq<Op>, answers: seq<Answer>, k: nat, key: CString)
    requires k <= |ops| <= |answers|
  {
    exists data :: LastWrote(ops, answers, k, key, data)
  }

  /** So all answers of such a history can be told from the calls and answers before them: a fetch finds what was
      written last, a delete and a store find the key there if it was written and not removed since. */
  lemma AnswersMean(ops: seq<Op>, answers: seq<Answer>, k: nat)
    requires MapAnswers(ops, answers) && |answers| == |ops| && k < |ops|
    ensures var there := Present(ops, answers, k, ops[k].key);
            match ops[k]
            case FetchOp(key) =>
              if there then answers[k].Found? && answers[k].data.Some?
                            && LastWrote(ops, answers, k, key, answers[k].data.value)
              else answers[k] == Found(None)
            case DeleteOp(_) => answers[k] == Rc(if there then 0 else -1)
            case StoreOp(_, _, flag) =>
              answers[k] == Rc(if flag == BadFlag || (flag == DbReplace && !there) then -1
                               else if flag == DbInsert && there then 1 else 0)
  {
    hide MapRun, LastWrote, MapStore;
    var m, op, key := MapRun(ops[..k]), ops[k], ops[k].key;
    assert answers[k] == MapAnswer(m, op);
    if key in m { LastWriteWins(ops, answers, k, key, m[key]); }
    if Present(ops, answers, k, key) {
      var data :| LastWrote(ops, answers, k, key, data);
      LastWriteWins(ops, answers, k, key, data);
    }
    match op
    case StoreOp(_, data, flag) => StoreMeans(m, key, data, flag);
    case _ => OthersMean(m, key);
  }
}
