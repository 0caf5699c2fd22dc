/**
 The print spooler's queue of jobs: a doubly linked list that client threads add to at the tail, and that the one
 printer thread takes from at the head and puts deferred jobs back to. Each method is one stretch of code under
 the queue's lock, so any interleaving of threads is a sequence of these calls.
 */
module PrintQueue {

  class Job {
    var next: Job?
    var prev: Job?
    const jobid: int

    constructor (jobid: int)
      ensures this.jobid == jobid
    {
      this.jobid := jobid;
      next, prev := null, null;
    }
  }

  function Ids(jobs: seq<Job>): (r: seq<int>)
    ensures |r| == |jobs|
  {
    seq(|jobs|, i requires 0 <= i < |jobs| => jobs[i].jobid)
  }

  /** The job in place i, or null when there is no such place. */
  function At(jobs: seq<Job>, i: int): Job? { if 0 <= i < |jobs| then jobs[i] else null }

  function Without(jobs: seq<Job>, i: nat): (r: seq<Job>)
    requires i < |jobs|
    ensures |r| == |jobs| - 1
    ensures forall k {:trigger r[k]} :: 0 <= k < |r| ==> r[k] == if k < i then jobs[k] else jobs[k + 1]
  {
    jobs[..i] + jobs[i + 1..]
  }

  class Queue {
    var jobhead: Job?
    var jobtail: Job?

    // The queue, front first
    ghost var jobs: seq<Job>

    /** The list read forwards and the list read backwards are both `jobs`. */
    ghost predicate Valid()
      reads this, jobs
    {
      && (forall i, j :: 0 <= i < j < |jobs| ==> jobs[i] != jobs[j])
      && jobhead == At(jobs, 0) && jobtail == At(jobs, |jobs| - 1)
      && (forall i {:trigger jobs[i].next} :: 0 <= i < |jobs| ==> jobs[i].next == At(jobs, i + 1))
      && (forall i {:trigger jobs[i].prev} :: 0 <= i < |jobs| ==> jobs[i].prev == At(jobs, i - 1))
    }

    constructor ()
      ensures Valid() && jobs == []
    {
      jobhead, jobtail, jobs := null, null, [];
    }

    /** add_job */
    method AddJob(jobid: int) returns (jp: Job)
      requires Valid()
      modifies this, jobs
      ensures Valid() && jobs == old(jobs) + [jp] && fresh(jp) && jp.jobid == jobid
    {
      jp := new Job(jobid);
      jp.next := null;
      jp.prev := jobtail;
      if jobtail == null {
        jobhead := jp;
      } else {
        jobtail.next := jp;
      }
      jobtail := jp;
      ghost var before := jobs;
      jobs := jobs + [jp];
      assert forall i :: 0 <= i < |before| ==> jobs[i] == before[i];
    }

    /** replace_job */
    method ReplaceJob(jp: Job)
      requires Valid() && jp !in jobs
      modifies this, jobs, jp
      ensures Valid() && jobs == [jp] + old(jobs)
    {
      jp.prev := null;
      jp.next := jobhead;
      if jobhead == null {
        jobtail := jp;
      } else {
        jobhead.prev := jp;
      }
      jobhead := jp;
      ghost var before := jobs;
      jobs := [jp] + jobs;
      assert forall i :: 0 < i < |jobs| ==> jobs[i] == before[i - 1];
    }

    /** remove_job: from any place in the queue. */
    method RemoveJob(target: Job, ghost i: nat)
      requires Valid() && i < |jobs| && jobs[i] == target
      modifies this, jobs
      ensures Valid() && jobs == Without(old(jobs), i) && target !in jobs
    {
      hide Without;
      ghost var before := jobs;
      assert target.next == At(before, i + 1) && target.prev == At(before, i - 1);
      if target.next != null {
        target.next.prev := target.prev;
      } else {
        jobtail := target.prev;
      }
      if target.prev != null {
        target.prev.next := target.next;
      } else {
        jobhead := target.next;
      }
      jobs := Without(before, i);
    }
  }

  // ---- The printer thread among the clients ----

  /** What happens next: a client adds a job, or the printer thread reaches the end of one of its stretches. */
  datatype Event = Add(jobid: int) | PickUp | Printed | Cancelled | Deferred

  function Added(script: seq<Event>): seq<int> {
    if script == [] then []
    else
      var rest := Added(script[..|script| - 1]);
      var e := script[|script| - 1];
      if e.Add? then rest + [e.jobid] else rest
  }

  /** How far the printer thread is after a script: the number of jobs done with, and whether it has one in hand. */
  datatype Progress = Progress(done: nat, busy: bool)

  function After(script: seq<Event>): Progress {
    if script == [] then Progress(0, false)
    else
      var before, e := script[..|script| - 1], script[|script| - 1];
      var p := After(before);
      match e
      case Add(_) => p
      case PickUp => p.(busy := p.busy || p.done < |Added(before)|)
      case Printed | Cancelled => Progress(if p.busy then p.done + 1 else p.done, false)
      case Deferred => p.(busy := false)
  }

  /** The events that end a job: a print or a cancellation that finds the thread with a job in hand. */
  predicate EndsJob(script: seq<Event>, i: nat) {
    i < |script| && script[i] in {Printed, Cancelled} && After(script[..i]).busy
  }

  function Endings(script: seq<Event>): set<nat> {
    set i: nat | i < |script| && EndsJob(script, i)
  }

  lemma EndsJobBefore(script: seq<Event>, n: nat, i: nat)
    requires i < n <= |script|
    ensures EndsJob(script[..n], i) == EndsJob(script, i)
  {
    assert script[..n][..i] == script[..i];
    hide After;
  }

  lemma LastEnding(script: seq<Event>)
    requires script != []
    ensures var n := |script| - 1;
            |Endings(script)| == |Endings(script[..n])| + if EndsJob(script, n) then 1 else 0
  {
    hide EndsJob;
    var n := |script| - 1;
    var old', new' := Endings(script[..n]), Endings(script);
    forall i: nat | i < n ensures i in old' <==> i in new' { EndsJobBefore(script, n, i); }
    assert new' == if EndsJob(script, n) then old' + {n} else old';
  }

  /** As many jobs are done with as there are such events. */
  lemma {:induction false} DoneAreEndings(script: seq<Event>)
    ensures After(script).done == |Endings(script)|
  {
    if script != [] {
      hide Endings, Added;
      DoneAreEndings(script[..|script| - 1]);
      LastEnding(script);
    } else {
      assert Endings(script) == {};
    }
  }

  /** The pick-up i found a job waiting, and the job it took has neither been ended nor deferred since. */
  predicate HeldSince(script: seq<Event>, i: nat) {
    && i < |script| && script[i] == PickUp && After(script[..i]).done < |Added(script[..i])|
    && forall k :: i < k < |script| ==> script[k].Add? || script[k] == PickUp
  }

  lemma HeldBefore(script: seq<Event>, i: nat)
    requires script != [] && i < |script| - 1
    requires script[|script| - 1].Add? || script[|script| - 1] == PickUp
    ensures HeldSince(script, i) == HeldSince(script[..|script| - 1], i)
  {
    hide After, Added;
    var before := script[..|script| - 1];
    assert before[..i] == script[..i] && before[i] == script[i];
    assert forall k :: i < k < |before| ==> before[k] == script[k];
  }

  /** The thread has a job in hand if and only if there is such a pick-up. */
  lemma {:induction false} BusyIffHeld(script: seq<Event>)
    ensures After(script).busy <==> exists i: nat :: HeldSince(script, i)
  {
    if script != [] {
      hide Added;
      var n := |script| - 1;
      var before, e := script[..n], script[n];
      BusyIffHeld(before);
      if e.Add? || e == PickUp {
        forall i: nat | i < n ensures HeldSince(script, i) == HeldSince(before, i) { HeldBefore(script, i); }
        if After(before).busy {
          var i: nat :| HeldSince(before, i);
          assert HeldSince(script, i);
        }
        if e == PickUp && After(before).done < |Added(before)| { assert HeldSince(script, n); }
      }
    }
  }

  class Spooler {
    const queue: Queue
    var jp: Job?

    // Identifiers of the jobs printed or cancelled, in order
    ghost var finished: seq<int>

    ghost predicate Valid()
      reads this, queue, queue.jobs
    {
      queue.Valid() && (jp != null ==> jp !in queue.jobs)
    }

    /** Everything that was ever added: finished, in the printer thread's hands, and waiting. */
    ghost function Line(): seq<int>
      reads this, queue, queue.jobs
    {
      finished + (if jp == null then [] else [jp.jobid]) + Ids(queue.jobs)
    }

    constructor ()
      ensures Valid() && Line() == [] && jp == null && fresh(queue) && finished == []
      ensures queue.jobs == []
    {
      queue := new Queue();
      jp, finished := null, [];
    }

    /** A client's request. */
    method Client(jobid: int)
      requires Valid()
      modifies this, queue, queue.jobs
      ensures Valid() && Line() == old(Line()) + [jobid] && finished == old(finished) && jp == old(jp)
      ensures queue.jobs != []
      ensures var job := queue.jobs[|queue.jobs| - 1];
              fresh(job) && job.jobid == jobid && queue.jobs == old(queue.jobs) + [job]
    {
      var job := queue.AddJob(jobid);
    }

    /** The printer thread takes the first job; while there is none it waits. */
    method TakeJob()
      requires Valid()
      modifies this, queue, queue.jobs
      ensures Valid() && Line() == old(Line()) && finished == old(finished)
      ensures if old(jp) == null && old(queue.jobs) != []
              then jp == old(queue.jobs)[0] && queue.jobs == old(queue.jobs)[1..]
              else jp == old(jp) && queue.jobs == old(queue.jobs)
    {
      if jp == null && queue.jobhead != null {
        jp := queue.jobhead;
        queue.RemoveJob(jp, 0);
      }
    }

    /** The job is done with, printed or given up. */
    method Free()
      requires Valid()
      modifies this
      ensures Valid() && Line() == old(Line()) && jp == null
      ensures finished == old(finished) + if old(jp) == null then [] else [old(jp).jobid]
    {
      if jp != null {
        finished := finished + [jp.jobid];
        jp := null;
      }
    }

    /** The printer cannot be reached: the job goes back to the front. */
    method Defer()
      requires Valid()
      modifies this, queue, queue.jobs, jp
      ensures Valid() && Line() == old(Line()) && jp == null && finished == old(finished)
      ensures queue.jobs == (if old(jp) == null then [] else [old(jp)]) + old(queue.jobs)
    {
      if jp != null {
        queue.ReplaceJob(jp);
        jp := null;
      }
    }

    /** One event of the interleaving; the jobs about are the ones there were, or new. */
    method Happen(e: Event)
      requires Valid()
      modifies this, queue, queue.jobs, jp
      ensures Valid() && Line() == old(Line()) + if e.Add? then [e.jobid] else []
      ensures finished == old(finished) + if (e.Printed? || e.Cancelled?)
              && old(jp) != null then [old(jp).jobid] else []
      ensures match e
              case Add(jobid) =>
                jp == old(jp) && queue.jobs != []
                && var job := queue.jobs[|queue.jobs| - 1];
                   fresh(job) && job.jobid == jobid && queue.jobs == old(queue.jobs) + [job]
              case PickUp =>
                if old(jp) == null && old(queue.jobs) != []
                then jp == old(queue.jobs)[0] && queue.jobs == old(queue.jobs)[1..]
                else jp == old(jp) && queue.jobs == old(queue.jobs)
              case Printed | Cancelled => jp == null && queue.jobs == old(queue.jobs)
              case Deferred =>
                jp == null && queue.jobs == (if old(jp) == null then [] else [old(jp)]) + old(queue.jobs)
    {
      match e {
        case Add(jobid) => Client(jobid);
        case PickUp => TakeJob();
        case Printed | Cancelled => Free();
        case Deferred => Defer();
      }
    }
  }

  /** Any interleaving: no job is lost, printed twice or overtaken, however often jobs are deferred. Done with are the
      first jobs, as many as events ended one; the next is the one in hand, if any; and the others wait. */
  method Serve(script: seq<Event>) returns (spooler: Spooler)
    ensures fresh(spooler) && spooler.Valid() && spooler.Line() == Added(script)
    ensures spooler.finished <= Added(script) && |spooler.finished| == After(script).done
    ensures spooler.jp != null <==> After(script).busy
  {
    spooler := new Spooler();
    var i := 0;
    while i < |script|
      invariant i <= |script| && fresh(spooler) && fresh(spooler.queue) && fresh(spooler.queue.jobs)
      invariant spooler.jp != null ==> fresh(spooler.jp)
      invariant spooler.Valid() && spooler.Line() == Added(script[..i])
      invariant |spooler.finished| == After(script[..i]).done && (spooler.jp != null <==> After(script[..i]).busy)
    {
      assert script[..i + 1][..i] == script[..i];
      ghost var jobs := spooler.queue.jobs;
      assert forall j :: j in jobs ==> fresh(j);
      spooler.Happen(script[i]);
      forall k | 0 <= k < |spooler.queue.jobs| ensures fresh(spooler.queue.jobs[k]) {
        assert spooler.queue.jobs[k] in spooler.queue.jobs;
      }
      i := i + 1;
    }
    assert script[..i] == script;
  }
}
