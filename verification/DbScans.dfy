/**
 A sequential scan among other processes, followed through its steps: what it passes over, where it ends, and what it
 answers.
 */
module DbScans {
  import opened Options
  import opened Seals
  import opened CText
  import opened DbFormat
  import opened DbFiles
  import opened DbBytes
  import opened DbSpec
  import opened DbProcesses
  import opened DbInvariant
  import opened DbSteps
  import opened DbMoves
  import opened DbInterleaving
  import opened DbRunBytes

  predicate Scanning(pc: Pc) { pc == ScanLock || pc == ScanRead || pc == ScanData || pc == ScanUnlock }

  // ---- One step ----

  lemma CursorPlaced(hash: Hasher, s: Sys, p: nat)
    requires InOrder(hash, s) && p < |s.procs|
    ensures AtRecord(s.files, s.procs[p].cursor) && Tiled(s.files)
  {
    FilesWellFormed(hash, s);
    BridgedSame(s);
    CursorFact(hash, Logical(s), p);
  }

  lemma CursorFact(hash: Hasher, s: Sys, p: nat)
    requires StandingOf(hash, s) == Firm && p < |s.procs|
    ensures AtRecord(s.files, s.procs[p].cursor)
  {
    Look(hash, s);
  }

  /** The look at the next record. At the end of the file the scan ends with nothing; a record whose key is all blanks
      is passed; and any other is the one whose data is read next. */
  lemma LookAtNext(hash: Hasher, s: Sys, p: nat)
    requires InOrder(hash, s) && p < |s.procs| && s.procs[p].pc == ScanRead
    ensures var (f, me, me') := (s.files, s.procs[p], Step(hash, s, p).procs[p]);
            if me.cursor == f.idxEnd then me'.pc == ScanUnlock && me'.res == Found(None) && me'.cursor == me.cursor
            else
              && me.cursor in f.recs && me'.cursor == End(f, me.cursor)
              && (if AllBlank(f.recs[me.cursor].key) then me'.pc == ScanRead
                  else me'.pc == ScanData && me'.off == me.cursor && me'.rec == f.recs[me.cursor])
  {
    hide InOrder, AllBlank;
    CursorPlaced(hash, s, p);
    EndBehind(s.files);
  }

  /** The read of its data gives the answer. */
  lemma AnswerOfScan(hash: Hasher, s: Sys, p: nat)
    requires InOrder(hash, s) && p < |s.procs| && s.procs[p].pc == ScanData
    ensures var (f, me, me') := (s.files, s.procs[p], Step(hash, s, p).procs[p]);
            && me.rec.datoff in f.dat && me'.pc == ScanUnlock && me'.res == Found(Some(f.dat[me.rec.datoff]))
            && me'.off == me.off && me'.rec == me.rec && me'.cursor == me.cursor
  {
    ReadsFind(hash, s, p);
    hide InOrder;
  }

  /** A scan goes on where the last one of the process ended, and after a rewind at the first record. */
  lemma ScanStarts(s: Sys, p: nat)
    requires p < |s.procs| && s.procs[p].pc == Idle
    ensures InvokeScan(s, p).procs[p] == s.procs[p].(pc := ScanLock)
    ensures InvokeRewind(s, p).procs[p] == s.procs[p].(cursor := FIRST_REC)
  {
  }

  lemma NewInFiles(hash: Hasher, f: Files, me: Proc, o: nat)
    requires me.pc in {ReuseRec, DelRec} ==> me.off in f.recs
    requires o in FilesAfter(hash, f, me).recs
    ensures o in f.recs || o == f.idxEnd
  {
    hide RecSize, Blanks, ChainOf, KeyOf, DataOf;
  }

  /** A record that was not there before a step is behind all others. */
  lemma NewAtEnd(hash: Hasher, s: Sys, p: nat, o: nat)
    requires InOrder(hash, s) && p < |s.procs| && Enabled(hash, s, p) && o in Step(hash, s, p).files.recs
    ensures o in s.files.recs || o == s.files.idxEnd
  {
    hide Step, InOrder, Enabled, FilesAfter;
    StepFiles(hash, s, p);
    if s.procs[p].pc in {ReuseRec, DelRec} { RecInPlace(hash, s, p); }
    NewInFiles(hash, s.files, s.procs[p], o);
  }

  // ---- A whole call ----

  predicate At(run: seq<Sys>, x: nat, p: nat) { x < |run| && p < |run[x].procs| }

  /** In state t the process is about to look at record o, whose key is all blanks or not. */
  ghost predicate LooksAt(run: seq<Sys>, t: nat, p: nat, o: nat, blank: bool) {
    && At(run, t, p) && run[t].procs[p].pc == ScanRead && run[t].procs[p].cursor == o
    && o in run[t].files.recs && AllBlank(run[t].files.recs[o].key) == blank
  }

  /** Since state b the process has looked at this record, and it was blank. */
  ghost predicate PassedBlank(run: seq<Sys>, b: nat, x: nat, p: nat, o: nat) {
    exists t: nat :: b <= t < x && LooksAt(run, t, p, o, true)
  }

  /** The record in hand is one the process has looked at, and its key was not blank. */
  ghost predicate InHand(run: seq<Sys>, b: nat, x: nat, p: nat)
    requires At(run, x, p)
  {
    var me := run[x].procs[p];
    exists t: nat :: b <= t < x && LooksAt(run, t, p, me.off, false) && run[t].files.recs[me.off] == me.rec
  }

  /** Since state b the process has looked for the end of the file where its cursor is, and found it. */
  ghost predicate MetEnd(run: seq<Sys>, b: nat, x: nat, p: nat)
    requires At(run, x, p)
  {
    exists t: nat {:trigger run[t].procs} :: b <= t < x && At(run, t, p) && run[t].procs[p].pc == ScanRead
      && run[t].procs[p].cursor == run[x].procs[p].cursor == run[t].files.idxEnd
  }

  /** Since state b the process has read this answer where the record in hand says the data is. */
  ghost predicate ReadBackAt(run: seq<Sys>, b: nat, x: nat, p: nat, data: CString)
    requires At(run, x, p)
  {
    exists t: nat {:trigger run[t].files.dat} :: b <= t < x < |run| && run[x].procs[p].rec.datoff in run[t].files.dat
      && run[t].files.dat[run[x].procs[p].rec.datoff] == data
  }

  /** The place up to which a scan has seen all records. */
  function SeenTo(me: Proc): nat {
    if me.pc == ScanData || (me.pc == ScanUnlock && me.res != Found(None)) then me.off else me.cursor
  }

  /** What the process has done since its call of db_nextrec began in state b. */
  ghost predicate ScanSince(run: seq<Sys>, b: nat, x: nat, p: nat) {
    && 0 < b <= x && At(run, b - 1, p) && At(run, b, p) && At(run, x, p)
    && run[b - 1].procs[p].pc == Idle && run[b].procs[p] == run[b - 1].procs[p].(pc := ScanLock)
    && run[b].procs[p].cursor <= SeenTo(run[x].procs[p]) <= run[x].procs[p].cursor && Scanning(run[x].procs[p].pc)
    && (forall o {:trigger PassedBlank(run, b, x, p, o)} ::
          o in run[x].files.recs && run[b].procs[p].cursor <= o < SeenTo(run[x].procs[p]) ==>
            PassedBlank(run, b, x, p, o))
    && var me := run[x].procs[p];
    && (me.pc == ScanData ==> InHand(run, b, x, p))
    && (me.pc == ScanUnlock ==>
          || (me.res == Found(None) && MetEnd(run, b, x, p))
          || (me.res.Found? && me.res.data.Some? && InHand(run, b, x, p)
              && ReadBackAt(run, b, x, p, me.res.data.value)))
  }

  lemma PassedLater(run: seq<Sys>, b: nat, x: nat, p: nat, o: nat)
    requires PassedBlank(run, b, x, p, o)
    ensures PassedBlank(run, b, x + 1, p, o)
  {
    var t: nat :| b <= t < x && LooksAt(run, t, p, o, true);
  }

  lemma AllPassedLater(run: seq<Sys>, b: nat, x: nat, p: nat)
    requires ScanSince(run, b, x, p) && At(run, x + 1, p)
    requires forall o :: o in run[x + 1].files.recs ==> o in run[x].files.recs || o >= SeenTo(run[x].procs[p])
    ensures forall o {:trigger PassedBlank(run, b, x + 1, p, o)} ::
              o in run[x + 1].files.recs && run[b].procs[p].cursor <= o < SeenTo(run[x].procs[p]) ==>
              PassedBlank(run, b, x + 1, p, o)
  {
    var me, recs := run[x].procs[p], run[x + 1].files.recs;
    forall o | o in recs && run[b].procs[p].cursor <= o < SeenTo(me)
      ensures PassedBlank(run, b, x + 1, p, o)
    {
      assert PassedBlank(run, b, x, p, o);
      PassedLater(run, b, x, p, o);
    }
  }

  lemma HandLater(run: seq<Sys>, b: nat, x: nat, p: nat)
    requires At(run, x, p) && At(run, x + 1, p) && InHand(run, b, x, p)
    requires run[x + 1].procs[p].off == run[x].procs[p].off && run[x + 1].procs[p].rec == run[x].procs[p].rec
    ensures InHand(run, b, x + 1, p)
  {
    var me := run[x].procs[p];
    var t: nat :| b <= t < x && LooksAt(run, t, p, me.off, false) && run[t].files.recs[me.off] == me.rec;
  }

  lemma MetLater(run: seq<Sys>, b: nat, x: nat, p: nat)
    requires At(run, x, p) && At(run, x + 1, p) && MetEnd(run, b, x, p)
    requires run[x + 1].procs[p].cursor == run[x].procs[p].cursor
    ensures MetEnd(run, b, x + 1, p)
  {
    var t: nat :| b <= t < x && At(run, t, p) && run[t].procs[p].pc == ScanRead
                  && run[t].procs[p].cursor == run[x].procs[p].cursor == run[t].files.idxEnd;
    assert run[t].procs == run[t].procs;
  }

  lemma BackLater(run: seq<Sys>, b: nat, x: nat, p: nat, data: CString)
    requires At(run, x, p) && At(run, x + 1, p) && ReadBackAt(run, b, x, p, data)
    requires run[x + 1].procs[p].rec == run[x].procs[p].rec
    ensures ReadBackAt(run, b, x + 1, p, data)
  {
    var t: nat :| b <= t < x && run[x].procs[p].rec.datoff in run[t].files.dat
                  && run[t].files.dat[run[x].procs[p].rec.datoff] == data;
    assert run[t].files.dat == run[t].files.dat;
  }

  /** Another process moves: what it appends is behind all the scan has seen. */
  lemma OtherMoves(run: seq<Sys>, b: nat, x: nat, p: nat)
    requires ScanSince(run, b, x, p) && At(run, x + 1, p) && run[x + 1].procs[p] == run[x].procs[p]
    requires forall o :: o in run[x + 1].files.recs ==> o in run[x].files.recs || o >= SeenTo(run[x].procs[p])
    ensures ScanSince(run, b, x + 1, p)
  {
    var me := run[x].procs[p];
    AllPassedLater(run, b, x, p);
    if me.pc == ScanData { HandLater(run, b, x, p); }
    if me.pc == ScanUnlock {
      if me.res == Found(None) {
        MetLater(run, b, x, p);
      } else {
        HandLater(run, b, x, p);
        BackLater(run, b, x, p, me.res.data.value);
      }
    }
  }

  /** The scan's own look at the next record. */
  lemma Looks(hash: Hasher, run: seq<Sys>, b: nat, x: nat, p: nat)
    requires ScanSince(run, b, x, p) && InOrder(hash, run[x]) && run[x].procs[p].pc == ScanRead
    requires x + 1 < |run| && run[x + 1] == Step(hash, run[x], p) && At(run, x + 1, p)
    requires run[x + 1].files == run[x].files
    ensures ScanSince(run, b, x + 1, p)
  {
    hide InOrder, Step, AllBlank, RecSize, ReadBackAt, Enabled;
    var f, me, me' := run[x].files, run[x].procs[p], run[x + 1].procs[p];
    LookAtNext(hash, run[x], p);
    CursorPlaced(hash, run[x], p);
    AtRecordNext(f, me.cursor);
    hide DigitCount;
    AllPassedLater(run, b, x, p);
    forall o | o in f.recs && me.cursor <= o < SeenTo(me')
      ensures PassedBlank(run, b, x + 1, p, o)
    {
      assert LooksAt(run, x, p, o, true);
    }
    if me.cursor == f.idxEnd {
      assert run[x].procs == run[x].procs;
      assert MetEnd(run, b, x + 1, p);
    } else if me'.pc == ScanData {
      assert LooksAt(run, x, p, me'.off, false);
    }
  }

  /** Its own read of the data. */
  lemma Answers(hash: Hasher, run: seq<Sys>, b: nat, x: nat, p: nat)
    requires ScanSince(run, b, x, p) && InOrder(hash, run[x]) && run[x].procs[p].pc == ScanData
    requires x + 1 < |run| && run[x + 1] == Step(hash, run[x], p) && At(run, x + 1, p)
    requires run[x + 1].files == run[x].files
    ensures ScanSince(run, b, x + 1, p)
  {
    hide InOrder, Step, AllBlank;
    var f, me := run[x].files, run[x].procs[p];
    AnswerOfScan(hash, run[x], p);
    AllPassedLater(run, b, x, p);
    HandLater(run, b, x, p);
    assert run[x].files.dat == run[x].files.dat;
    assert ReadBackAt(run, b, x + 1, p, f.dat[me.rec.datoff]);
  }

  /** What a step of another process may change for a scan: it leaves the scanning process as it is, and what it appends
      is behind the cursor. */
  lemma OthersStep(hash: Hasher, s: Sys, s': Sys, p: nat, q: nat)
    requires InOrder(hash, s) && p < |s.procs| && q < |s.procs| && q != p && NextOf(hash, s, s', q)
    ensures |s'.procs| == |s.procs| && s'.procs[p] == s.procs[p]
    ensures forall o :: o in s'.files.recs ==> o in s.files.recs || o >= s.procs[p].cursor
  {
    hide InOrder, Step, Enabled;
    CursorPlaced(hash, s, p);
    EndBehind(s.files);
    if Enabled(hash, s, q) && s' == Step(hash, s, q) {
      StepMoves(hash, s, q);
      var recs := s'.files.recs;
      forall o | o in recs ensures o in s.files.recs || o >= s.procs[p].cursor {
        NewAtEnd(hash, s, q, o);
      }
    }
  }

  /** The steps of a scan change no file. */
  lemma ScanWritesNothing(hash: Hasher, s: Sys, p: nat)
    requires p < |s.procs| && Enabled(hash, s, p) && Scanning(s.procs[p].pc)
    ensures Step(hash, s, p).files == s.files
  {
  }

  /** The scan has the lock and goes to its first look. */
  lemma Locked(hash: Hasher, run: seq<Sys>, b: nat, x: nat, p: nat)
    requires ScanSince(run, b, x, p) && run[x].procs[p].pc == ScanLock && Enabled(hash, run[x], p)
    requires x + 1 < |run| && run[x + 1] == Step(hash, run[x], p) && At(run, x + 1, p)
    ensures ScanSince(run, b, x + 1, p)
  {
    AllPassedLater(run, b, x, p);
  }

  /** Whoever moves, the scan is followed one state further. */
  lemma OneFurther(hash: Hasher, run: seq<Sys>, b: nat, x: nat, p: nat)
    requires ScanSince(run, b, x, p) && InOrder(hash, run[x]) && x + 1 < |run| && Next(hash, run[x], run[x + 1])
    requires At(run, x + 1, p) && Scanning(run[x + 1].procs[p].pc)
    ensures ScanSince(run, b, x + 1, p)
  {
    hide InOrder, Step, Enabled;
    var q: nat :| q < |run[x].procs| && NextOf(hash, run[x], run[x + 1], q);
    if q != p {
      hide NextOf;
      OthersStep(hash, run[x], run[x + 1], p, q);
      OtherMoves(run, b, x, p);
    } else {
      assert Enabled(hash, run[x], p) && run[x + 1] == Step(hash, run[x], p);
      ScanWritesNothing(hash, run[x], p);
      match run[x].procs[p].pc
      case ScanLock => Locked(hash, run, b, x, p);
      case ScanRead => Looks(hash, run, b, x, p);
      case ScanData => Answers(hash, run, b, x, p);
      case ScanUnlock => ScanEnds(hash, run[x], p); assert false;
    }
  }

  lemma ScanEnds(hash: Hasher, s: Sys, p: nat)
    requires p < |s.procs| && Enabled(hash, s, p) && s.procs[p].pc == ScanUnlock
    ensures Step(hash, s, p).procs[p] == s.procs[p].(pc := Idle)
  {
  }

  /** A scan begins in an idle process, and only by a call of db_nextrec. */
  lemma ScanBegins(hash: Hasher, run: seq<Sys>, x: nat, p: nat)
    requires At(run, x, p) && At(run, x + 1, p) && Next(hash, run[x], run[x + 1])
    requires Scanning(run[x + 1].procs[p].pc) && !Scanning(run[x].procs[p].pc)
    ensures ScanSince(run, x + 1, x + 1, p)
  {
    BegunHere(hash, run[x], run[x + 1], p);
  }

  lemma BegunHere(hash: Hasher, s: Sys, s': Sys, p: nat)
    requires p < |s.procs| && p < |s'.procs| && Next(hash, s, s')
    requires Scanning(s'.procs[p].pc) && !Scanning(s.procs[p].pc)
    ensures s.procs[p].pc == Idle && s'.procs[p] == s.procs[p].(pc := ScanLock)
  {
    hide Step, Enabled;
    var q: nat :| q < |s.procs| && NextOf(hash, s, s', q);
    if Enabled(hash, s, q) && s' == Step(hash, s, q) {
      StepMoves(hash, s, q);
      StaysOut(hash, s, q);
    }
  }

  lemma StaysOut(hash: Hasher, s: Sys, p: nat)
    requires p < |s.procs| && Enabled(hash, s, p) && !Scanning(s.procs[p].pc)
    ensures !Scanning(Step(hash, s, p).procs[p].pc)
  {
    StepMoves(hash, s, p);
    assert s.procs[p].pc != Idle;
    hide Step;
  }

  /** In every run a process that is scanning has been since one call of db_nextrec, and what it has passed since was
      blank when it looked at it. */
  lemma {:induction false} ScanFollowed(hash: Hasher, n: nat, run: seq<Sys>, x: nat, p: nat)
    requires InTable(hash) && Run(hash, n, run) && At(run, x, p) && Scanning(run[x].procs[p].pc)
    ensures exists b: nat :: ScanSince(run, b, x, p)
    decreases x
  {
    hide InOrder, Next, Run, InTable, ScanSince;
    assert x > 0 by { FirstIdle(hash, n, run, p); }
    StepAt(hash, n, run, x);
    SameProcs(hash, run[x - 1], run[x]);
    if Scanning(run[x - 1].procs[p].pc) {
      ScanFollowed(hash, n, run, x - 1, p);
      var b: nat :| ScanSince(run, b, x - 1, p);
      OneFurther(hash, run, b, x - 1, p);
    } else {
      ScanBegins(hash, run, x - 1, p);
    }
  }

  lemma FirstIdle(hash: Hasher, n: nat, run: seq<Sys>, p: nat)
    requires Run(hash, n, run)
    ensures p < |run[0].procs| ==> run[0].procs[p].pc == Idle
  {
  }

  /** What db_nextrec answers, in every run. In the state before the call returns:
      every record between the place where the call began and the place it reached had a key of all blanks when the
      call looked at it; the call answers nothing only if it met the end of the file there; and otherwise it answers
      the data of the record it reached, whose key was not all blanks. */
  lemma ScanReturns(hash: Hasher, n: nat, run: seq<Sys>, x: nat, p: nat)
    requires InTable(hash) && Run(hash, n, run) && At(run, x, p) && run[x].procs[p].pc == ScanUnlock
    ensures exists b: nat :: ScanSince(run, b, x, p)
    ensures x + 1 < |run| && NextOf(hash, run[x], run[x + 1], p) ==>
              At(run, x + 1, p) && run[x + 1].procs[p] == run[x].procs[p].(pc := Idle)
  {
    hide Run, InTable, ScanSince, Step;
    ScanFollowed(hash, n, run, x, p);
    ScanEnds(hash, run[x], p);
    StepMoves(hash, run[x], p);
  }
}
