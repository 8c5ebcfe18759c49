/**
  The worker of the update queue as a program. It owns the store and, as a ghost, the run it has produced so far:
  every execution, with any answers, errors and requests arriving while it waits, extends that run step by step.
  So what `QueueTheorems` says of runs holds of the program, and a crash at any moment leaves a prefix of its run.
 */
module Coordinator {
  import opened Wrappers
  import opened Json
  import opened WriterProtocol
  import opened UpdateQueue
  import opened QueueStore
  import opened QueueRuns
  import opened QueueTheorems
  import L = QueueLedger

  /** A browser's request. */
  datatype Arrival = Arrival(contentId: int, requestId: string, title: string, now: Time)

  /** The answer to a GET of a command's state. */
  datatype GetReply = Failed | Answered(status: int, body: Option<Json>)

  ghost function Asks(a: Arrival): Action {
    Submits(a.contentId, a.requestId, a.title, a.now)
  }

  /** Everything the outside does during one iteration of the worker. */
  datatype Iteration = Iteration(
    polls: nat -> GetReply,            // the answer to the k-th GET of the sweep
    duringPolls: nat -> seq<Arrival>,  // requests arriving while it is awaited
    pollError: Option<nat>,            // an unexpected error at the k-th GET
    errorBeforePost: bool,             // an unexpected error between the claim and the POST
    reply: PostReply,
    duringPost: seq<Arrival>,
    errorAfterPost: bool,              // an unexpected error instead of recording the reply
    interruptFails: bool,              // the transaction that should mark the interrupted job raises, too
    clock: nat -> Time)

  datatype Progress = Dispatched | Quiet | Raised

  function Payload(reply: GetReply): Option<Json> {
    if reply.Answered? && reply.status == 200 then reply.body else None
  }

  /** Only a 200 with a body says something about a command. */
  lemma PayloadExactly(reply: GetReply, body: Json)
    ensures Payload(reply) == Some(body) <==> reply == Answered(200, Some(body))
  {
  }

  ghost function Last(run: seq<System>): System
    requires run != []
  {
    run[|run| - 1]
  }

  ghost function Extend(run: seq<System>, action: Action): seq<System>
    requires run != [] && Enabled(Last(run), action)
  {
    run + [Apply(Last(run), action)]
  }

  /** The run takes the step somewhere from the given state on. */
  ghost predicate Takes(run: seq<System>, from: nat, action: Action) {
    exists i :: from <= i < |run| - 1 && Steps(run, i, action)
  }

  ghost predicate Steps(run: seq<System>, i: nat, action: Action)
    requires i < |run| - 1
  {
    Enabled(run[i], action) && run[i + 1] == Apply(run[i], action)
  }

  lemma TakesLater(run: seq<System>, longer: seq<System>, from: nat, earlier: nat, action: Action)
    requires Takes(run, from, action) && run <= longer && earlier <= from
    ensures Takes(longer, earlier, action)
  {
    var i :| from <= i < |run| - 1 && Steps(run, i, action);
    assert longer[i] == run[i] && longer[i + 1] == run[i + 1];
    assert Steps(longer, i, action);
  }

  lemma TakesNow(run: seq<System>, action: Action)
    requires run != [] && Enabled(Last(run), action)
    ensures Takes(Extend(run, action), |run| - 1, action) && run <= Extend(run, action)
  {
    assert Steps(Extend(run, action), |run| - 1, action);
  }

  /** A run extended by an enabled action is a run. */
  lemma ExtendIsRun(run: seq<System>, action: Action)
    requires IsRun(run) && Enabled(Last(run), action)
    ensures IsRun(Extend(run, action)) && run <= Extend(run, action)
    ensures Consistent(Last(Extend(run, action)).tables)
  {
    var longer := Extend(run, action);
    forall i | 0 <= i < |longer| - 1
      ensures StepAt(longer, i)
    {
      if i < |run| - 1 {
        assert StepAt(run, i);
        assert longer[i] == run[i] && longer[i + 1] == run[i + 1];
      } else {
        assert longer[i] == Last(run) && longer[i + 1] == Apply(Last(run), action);
      }
    }
    RunInv(longer, |run|);
  }

  /**
    A crash at any moment: cut off anywhere, a run goes on with the crash and a new process, which finds exactly the
    tables that were there, and no unacknowledged job once it has opened them.
   */
  lemma CrashAnywhere(run: seq<System>, k: nat, now: Time) returns (continued: seq<System>)
    requires IsRun(run) && 0 < k <= |run| && !run[k - 1].worker.Off?
    ensures IsRun(continued) && |continued| == k + 2 && continued[..k] == run[..k]
    ensures continued[k].tables == run[k - 1].tables && continued[k].worker.Off?
    ensures Last(continued).worker.Idle? && forall job <- Last(continued).tables.jobs :: !Unacknowledged(job)
  {
    var prefix := run[..k];
    forall i | 0 <= i < |prefix| - 1
      ensures StepAt(prefix, i)
    {
      assert StepAt(run, i);
    }
    ExtendIsRun(prefix, Crashes);
    var crashed := Extend(prefix, Crashes);
    OpenLeavesNoneUnacknowledged(crashed, now);
    ExtendIsRun(crashed, Opens(now));
    continued := Extend(crashed, Opens(now));
  }

  lemma LastIsConsistent(run: seq<System>)
    requires IsRun(run)
    ensures Consistent(Last(run).tables)
  {
    RunInv(run, |run| - 1);
  }

  /** The worker's own job is running and unacknowledged. */
  lemma BusyJobIsRunning(run: seq<System>)
    requires IsRun(run) && L.Busy(Last(run).worker)
    ensures var s := Last(run);
      1 <= s.worker.jobId <= |s.tables.jobs| && Unacknowledged(s.tables.jobs[s.worker.jobId - 1])
  {
    RunInv(run, |run| - 1);
    var l := LedgerOf(Last(run));
    assert L.FatesInv(l);
    assert L.Has(l, l.worker.jobId) && L.At(l, l.worker.jobId).kind.Unacked?;
  }

  /** The job runs under this acknowledged command. */
  predicate Follows(jobs: seq<Job>, jobId: nat, command: Command) {
    IsRunning(jobs, jobId) && Pointer(jobs[jobId - 1]) == Some(command)
  }

  /** The first of the requests have been served. */
  ghost predicate Served(arrivals: seq<Arrival>, n: nat, run: seq<System>, from: nat) {
    n <= |arrivals| && forall i :: 0 <= i < n ==> Takes(run, from, Asks(arrivals[i]))
  }

  lemma ServedLater(arrivals: seq<Arrival>, n: nat, run: seq<System>, longer: seq<System>, from: nat)
    requires Served(arrivals, n, run, from) && run <= longer && n < |arrivals|
    requires from < |run| && Takes(longer, |run| - 1, Asks(arrivals[n]))
    ensures Served(arrivals, n + 1, longer, from)
  {
    TakesLater(longer, longer, |run| - 1, from, Asks(arrivals[n]));
    forall i | 0 <= i < n ensures Takes(longer, from, Asks(arrivals[i])) {
      TakesLater(run, longer, from, from, Asks(arrivals[i]));
    }
  }

  ghost function Asking(jobId: nat, env: Iteration, k: nat): Action {
    Polls(jobId, Payload(env.polls(k)), env.clock(k))
  }

  /** Each acknowledged job has been asked for, with one of the answers. */
  ghost predicate AllAsked(jobs: seq<Job>, run: seq<System>, from: nat, env: Iteration) {
    forall i :: 0 <= i < |jobs| && jobs[i].status.Running? && Pointer(jobs[i]).Some? ==> Asked(run, from, i + 1, env)
  }

  ghost predicate Asked(run: seq<System>, from: nat, jobId: nat, env: Iteration) {
    exists k: nat :: Takes(run, from, Asking(jobId, env, k))
  }

  ghost predicate AskedAs(jobId: nat, k: nat, run: seq<System>, from: nat, env: Iteration) {
    Takes(run, from, Asking(jobId, env, k))
  }

  /** The first of the pending ones have been asked for, each with its own answer. */
  ghost predicate AskedUpTo(pending: seq<(nat, Command)>, n: nat, run: seq<System>, from: nat, env: Iteration) {
    n <= |pending| && forall k :: 0 <= k < n ==> AskedAs(pending[k].0, k, run, from, env)
  }

  lemma AskedLater(pending: seq<(nat, Command)>, n: nat, run: seq<System>, between: seq<System>, longer: seq<System>,
                   from: nat, env: Iteration)
    requires AskedUpTo(pending, n, run, from, env) && run <= between <= longer && n < |pending|
    requires from < |run| && AskedAs(pending[n].0, n, longer, |between| - 1, env)
    ensures AskedUpTo(pending, n + 1, longer, from, env)
  {
    TakesLater(longer, longer, |between| - 1, from, Asking(pending[n].0, env, n));
    forall k | 0 <= k < n ensures AskedAs(pending[k].0, k, longer, from, env) {
      assert AskedAs(pending[k].0, k, run, from, env);
      TakesLater(run, longer, from, from, Asking(pending[k].0, env, k));
    }
  }

  lemma EveryoneAsked(jobs: seq<Job>, pending: seq<(nat, Command)>, run: seq<System>, from: nat, env: Iteration)
    requires AskedUpTo(pending, |pending|, run, from, env)
    requires forall id, command :: (id, command) in pending <==>
      IsRunning(jobs, id) && Pointer(jobs[id - 1]) == Some(command)
    ensures AllAsked(jobs, run, from, env)
  {
    forall i | 0 <= i < |jobs| && jobs[i].status.Running? && Pointer(jobs[i]).Some?
      ensures Asked(run, from, i + 1, env)
    {
      assert (i + 1, Pointer(jobs[i]).value) in pending;
      var k :| 0 <= k < |pending| && pending[k] == (i + 1, Pointer(jobs[i]).value);
      assert AskedAs(pending[k].0, k, run, from, env);
    }
  }

  lemma PendingFollow(jobs: seq<Job>, pending: seq<(nat, Command)>)
    requires forall id, command :: (id, command) in pending <==>
      IsRunning(jobs, id) && Pointer(jobs[id - 1]) == Some(command)
    ensures forall m :: 0 <= m < |pending| ==> Follows(jobs, pending[m].0, pending[m].1)
  {
    forall m | 0 <= m < |pending|
      ensures Follows(jobs, pending[m].0, pending[m].1)
    {
      assert (pending[m].0, pending[m].1) == pending[m];
    }
  }

  class Coordinator {
    const store: QueueStore
    ghost var run: seq<System>

    /** The run so far ends in the store's tables, with the worker in the given phase. */
    ghost predicate At(worker: L.Worker)
      reads this, store
    {
      && IsRun(run)
      && Last(run).tables == store.Contents()
      && Last(run).worker == worker
    }

    /** Takes the lock on existing tables: the process that left them is gone, its unacknowledged POST is uncertain. */
    constructor Open(store: QueueStore, now: Time, ghost history: seq<System>)
      requires IsRun(history) && Last(history).worker.Off? && Last(history).tables == store.Contents()
      modifies store
      ensures this.store == store && At(L.Idle)
      ensures run == Extend(history, Opens(now))
      ensures forall job <- store.jobs :: !Unacknowledged(job)
    {
      this.store := store;
      new;
      ExtendIsRun(history, Opens(now));
      OpenLeavesNoneUnacknowledged(history, now);
      store.MarkInterruptedRows(now);
      run := Extend(history, Opens(now));
    }

    method ArriveOne(arrival: Arrival, ghost worker: L.Worker)
      requires At(worker) && !worker.Off?
      modifies this`run, store
      ensures At(worker) && old(run) <= run
      ensures Last(run).posts == old(Last(run).posts)
      ensures old(store.jobs) <= store.jobs
      ensures Takes(run, |old(run)| - 1, Asks(arrival))
    {
      ghost var action := Asks(arrival);
      LastIsConsistent(run);
      TakesNow(run, action);
      ExtendIsRun(run, action);
      EnqueueAppends(store.Contents(), arrival.contentId, arrival.requestId, arrival.title, arrival.now);
      var _, _ := store.Submit(arrival.contentId, arrival.requestId, arrival.title, arrival.now);
      run := Extend(run, action);
    }

    /** Serves requests, whatever the worker is doing; existing jobs are untouched. */
    method Arrive(arrivals: seq<Arrival>, ghost worker: L.Worker)
      requires At(worker) && !worker.Off?
      modifies this`run, store
      ensures At(worker) && old(run) <= run
      ensures Last(run).posts == old(Last(run).posts)
      ensures old(store.jobs) <= store.jobs
      ensures Served(arrivals, |arrivals|, run, |old(run)| - 1)
    {
      for i := 0 to |arrivals|
        invariant At(worker) && old(run) <= run
        invariant Last(run).posts == old(Last(run).posts)
        invariant old(store.jobs) <= store.jobs
        invariant Served(arrivals, i, run, |old(run)| - 1)
      {
        ghost var before := run;
        ArriveOne(arrivals[i], worker);
        ServedLater(arrivals, i, before, run, |old(run)| - 1);
      }
    }

    /** Follows up one acknowledged command; a failed or inconclusive GET leaves its job running. */
    method Poll(jobId: nat, command: Command, payload: Option<Json>, now: Time)
      requires At(L.Idle)
      requires Follows(store.jobs, jobId, command)
      modifies this`run, store
      ensures At(L.Idle) && old(run) <= run
      ensures Last(run).posts == old(Last(run).posts)
      ensures |store.jobs| == |old(store.jobs)|
      ensures forall i :: 0 <= i < |store.jobs| && i != jobId - 1 ==> store.jobs[i] == old(store.jobs)[i]
      ensures Takes(run, |old(run)| - 1, Polls(jobId, payload, now))
    {
      ghost var action := Polls(jobId, payload, now);
      TakesNow(run, action);
      ExtendIsRun(run, action);
      if payload.Some? {
        var terminal := CommandTerminal(payload.value, command);
        if terminal.Some? {
          store.FinishJob(jobId, TerminalEnd(terminal.value), now);
        }
      }
      run := Extend(run, action);
    }

    /** Follows up every acknowledged command once, in the order of the jobs. */
    method Sweep(env: Iteration) returns (raised: bool)
      requires At(L.Idle)
      modifies this`run, store
      ensures At(L.Idle) && old(run) <= run
      ensures Last(run).posts == old(Last(run).posts)
      ensures raised ==> env.pollError.Some?
      ensures !raised ==> AllAsked(old(store.jobs), run, |old(run)| - 1, env)
    {
      LastIsConsistent(run);
      var pending := store.PendingCommands();
      PendingFollow(store.jobs, pending);
      ghost var jobs, from := store.jobs, |run| - 1;
      for k := 0 to |pending|
        invariant At(L.Idle) && old(run) <= run
        invariant Last(run).posts == old(Last(run).posts)
        invariant forall m :: k <= m < |pending| ==> Follows(store.jobs, pending[m].0, pending[m].1)
        invariant AskedUpTo(pending, k, run, from, env)
      {
        ghost var before := run;
        Arrive(env.duringPolls(k), L.Idle);
        if env.pollError == Some(k) {
          return true;
        }
        ghost var between := run;
        Poll(pending[k].0, pending[k].1, Payload(env.polls(k)), env.clock(k));
        AskedLater(pending, k, before, between, run, from, env);
      }
      EveryoneAsked(jobs, pending, run, from, env);
      return false;
    }

    /** The transactions that an answer calls for. */
    method StoreAnswer(jobId: nat, reply: PostReply, now: Time) returns (raised: bool)
      requires 1 <= jobId <= |store.jobs|
      modifies store
      ensures HandleReply(old(store.Contents()), jobId, reply, now) == if raised then None else Some(store.Contents())
      ensures raised ==> store.Contents() == old(store.Contents())
    {
      raised := false;
      if reply.Lost? {
        store.FinishJob(jobId, UNCERTAIN_END, now);
      } else if reply.status == 202 {
        var accepted := false;
        if reply.body.Some? {
          accepted := store.AcceptCommand(jobId, reply.body.value, now);
          assert !accepted ==> store.Contents() == old(store.Contents());
        }
        if !accepted {
          store.FinishJob(jobId, UNCERTAIN_END, now);
        }
      } else if reply.status == 200 {
        var sanitized := if reply.body.Some? then SafeResult(reply.body.value) else Declined;
        if sanitized.OverflowFault? {
          return true;
        }
        if sanitized.Accepted? {
          store.FinishJob(jobId, ResultEnd(sanitized.result), now);
        } else {
          store.FinishJob(jobId, UNCERTAIN_END, now);
        }
      } else if reply.status in REJECTIONS {
        store.FinishJob(jobId, RejectionEnd(reply.status), now);
      } else {
        store.FinishJob(jobId, UNCERTAIN_END, now);
      }
    }

    /** Records the answer to the POST in flight, in the transactions the answer calls for. */
    method Record(jobId: nat, reply: PostReply, now: Time) returns (raised: bool)
      requires At(L.InFlight(jobId)) && 1 <= jobId <= |store.jobs|
      modifies this`run, store
      ensures raised ==> At(L.InFlight(jobId)) && run == old(run)
      ensures !raised ==>
        && At(L.Idle) && old(run) <= run
        && Last(run).posts == old(Last(run).posts)
        && Last(run).fates == old(Last(run).fates)[jobId := Verdict(reply, old(store.jobs[jobId - 1].contentId))]
        && Takes(run, |old(run)| - 1, Replies(reply, now))
      ensures raised ==> reply.Http? && reply.status == 200
    {
      BusyJobIsRunning(run);
      raised := StoreAnswer(jobId, reply, now);
      if !raised {
        ExtendIsRun(run, Replies(reply, now));
        TakesNow(run, Replies(reply, now));
        run := Extend(run, Replies(reply, now));
      }
    }

    /** Sends the single POST of a claimed job and records its answer. */
    method Dispatch(jobId: nat, env: Iteration) returns (raised: bool)
      requires At(L.Sending(jobId))
      modifies this`run, store
      ensures old(run) <= run
      ensures At(if raised then L.InFlight(jobId) else L.Idle)
      ensures |Last(run).posts| == |old(Last(run).posts)| + 1
      ensures Last(run).posts[|old(Last(run).posts)|].jobId == jobId
      ensures Takes(run, |old(run)| - 1, Posts)
      ensures !raised ==> Takes(run, |old(run)| - 1, Replies(env.reply, env.clock(1)))
      ensures raised ==> Unanswerable(env)
    {
      BusyJobIsRunning(run);
      LastIsConsistent(run);
      ExtendIsRun(run, Posts);
      TakesNow(run, Posts);
      ghost var first := |run| - 1;
      run := Extend(run, Posts);
      ghost var posted := run;
      Arrive(env.duringPost, L.InFlight(jobId));
      TakesLater(posted, run, first, first, Posts);
      if env.errorAfterPost {
        return true;
      }
      ghost var waited := run;
      raised := Record(jobId, env.reply, env.clock(1));
      TakesLater(posted, run, first, first, Posts);
      if !raised { TakesLater(run, run, |waited| - 1, first, Replies(env.reply, env.clock(1))); }
    }

    /** Claims the first job of the day. */
    method TakeJob(now: Time) returns (claimed: Option<nat>)
      requires At(L.Idle)
      modifies this`run, store
      ensures old(run) <= run && At(if claimed.Some? then L.Sending(claimed.value) else L.Idle)
      ensures Last(run).posts == old(Last(run).posts)
      ensures Takes(run, |old(run)| - 1, Claims(now))
      ensures claimed == None ==> forall job <- store.jobs :: job.status != Queued
    {
      ExtendIsRun(run, Claims(now));
      TakesNow(run, Claims(now));
      LastIsConsistent(run);
      NothingQueued(store.Contents(), now);
      claimed := store.ClaimNext(now);
      run := Extend(run, Claims(now));
    }

    /** At most one claim and its single POST. */
    method Serve(env: Iteration) returns (progress: Progress)
      requires At(L.Idle)
      modifies this`run, store
      ensures old(run) <= run && At(Last(run).worker) && L.Alive(Last(run).worker)
      ensures !progress.Raised? ==> At(L.Idle)
      ensures progress.Quiet? ==> Last(run).posts == old(Last(run).posts)
      ensures progress.Dispatched? ==> |Last(run).posts| == |old(Last(run).posts)| + 1
      ensures |Last(run).posts| <= |old(Last(run).posts)| + 1
      ensures Takes(run, |old(run)| - 1, Claims(env.clock(0)))
      ensures progress.Quiet? ==> forall job <- store.jobs :: job.status != Queued
      ensures progress.Dispatched? ==>
        Takes(run, |old(run)| - 1, Posts) && Takes(run, |old(run)| - 1, Replies(env.reply, env.clock(1)))
      ensures progress.Raised? ==> env.errorBeforePost || Unanswerable(env)
    {
      ghost var from := |run| - 1;
      var claimed := TakeJob(env.clock(0));
      ghost var taken := run;
      if claimed.None? { return Quiet; }
      if env.errorBeforePost { return Raised; }
      var raised := Dispatch(claimed.value, env);
      TakesLater(taken, run, from, from, Claims(env.clock(0)));
      if raised { return Raised; }
      TakesLater(run, run, |taken| - 1, from, Posts);
      TakesLater(run, run, |taken| - 1, from, Replies(env.reply, env.clock(1)));
      return Dispatched;
    }

    /** One iteration: a sweep over the acknowledged commands, then at most one claim and its single POST. */
    method ProcessOne(env: Iteration) returns (progress: Progress)
      requires At(L.Idle)
      modifies this`run, store
      ensures old(run) <= run && At(Last(run).worker) && L.Alive(Last(run).worker)
      ensures !progress.Raised? ==> At(L.Idle)
      ensures progress.Quiet? ==> Last(run).posts == old(Last(run).posts)
      ensures progress.Dispatched? ==> |Last(run).posts| == |old(Last(run).posts)| + 1
      ensures |Last(run).posts| <= |old(Last(run).posts)| + 1
      // nothing is left undone: each acknowledged job is asked for, then a job is claimed, POSTed, its answer stored
      ensures !progress.Raised? || env.pollError.None? ==>
        AllAsked(old(store.jobs), run, |old(run)| - 1, env) && Takes(run, |old(run)| - 1, Claims(env.clock(0)))
      ensures progress.Quiet? ==> forall job <- store.jobs :: job.status != Queued
      ensures progress.Dispatched? ==>
        Takes(run, |old(run)| - 1, Posts) && Takes(run, |old(run)| - 1, Replies(env.reply, env.clock(1)))
      ensures progress.Raised? ==> env.pollError.Some? || env.errorBeforePost || Unanswerable(env)
    {
      ghost var from, jobs := |run| - 1, store.jobs;
      var raised := Sweep(env);
      if raised { return Raised; }
      ghost var swept := run;
      progress := Serve(env);
      AllAskedLater(jobs, swept, run, from, env);
      TakesLater(run, run, |swept| - 1, from, Claims(env.clock(0)));
      if progress.Dispatched? {
        TakesLater(run, run, |swept| - 1, from, Posts);
        TakesLater(run, run, |swept| - 1, from, Replies(env.reply, env.clock(1)));
      }
    }

    /** The handler of an unexpected error makes the job that was left uncertain; if that fails, the worker is gone. */
    method Recover(env: Iteration) returns (halted: bool)
      requires run != [] && At(Last(run).worker) && L.Alive(Last(run).worker)
      modifies this`run, store
      ensures old(run) <= run && At(if halted then L.Halted else L.Idle)
      ensures Last(run).posts == old(Last(run).posts)
      ensures halted == env.interruptFails
      ensures if halted then store.Contents() == old(store.Contents())
        else forall job <- store.jobs :: !Unacknowledged(job)
    {
      halted := env.interruptFails;
      if halted {
        ExtendIsRun(run, Halts);
        run := Extend(run, Halts);
      } else {
        var now := env.clock(2);
        ExtendIsRun(run, Interrupts(now));
        InterruptLeavesNoneUnacknowledged(run, now);
        store.MarkInterruptedRows(now);
        run := Extend(run, Interrupts(now));
      }
    }

    /** The worker's loop goes on after an unexpected error, unless its handler raises one. */
    method Run(iterations: seq<Iteration>) returns (halted: bool)
      requires At(L.Idle)
      modifies this`run, store
      ensures old(run) <= run && At(if halted then L.Halted else L.Idle)
      ensures |Last(run).posts| <= |old(Last(run).posts)| + |iterations|
      ensures halted ==> exists i :: 0 <= i < |iterations| && iterations[i].interruptFails
      ensures !halted ==> Worked(iterations, |iterations|, run, |old(run)| - 1)
    {
      halted := false;
      for i := 0 to |iterations|
        invariant Worked(iterations, i, run, |old(run)| - 1)
        invariant old(run) <= run && At(L.Idle) && !halted
        invariant |Last(run).posts| <= |old(Last(run).posts)| + i
      {
        ghost var before := run;
        var progress := ProcessOne(iterations[i]);
        ghost var between := run;
        if progress.Raised? {
          halted := Recover(iterations[i]);
          if halted { return; }
        }
        WorkedLater(iterations, i, before, between, run, |old(run)| - 1);
      }
    }
  }

  /** Every iteration whose sweep was not interrupted has looked for a job to claim. */
  ghost predicate Worked(iterations: seq<Iteration>, n: nat, run: seq<System>, from: nat) {
    n <= |iterations| && forall i :: 0 <= i < n && iterations[i].pollError.None? ==>
      Takes(run, from, Claims(iterations[i].clock(0)))
  }

  lemma WorkedLater(iterations: seq<Iteration>, n: nat, run: seq<System>, between: seq<System>, longer: seq<System>,
                    from: nat)
    requires Worked(iterations, n, run, from) && run <= between <= longer && n < |iterations| && from < |run|
    requires iterations[n].pollError.None? ==> Takes(between, |run| - 1, Claims(iterations[n].clock(0)))
    ensures Worked(iterations, n + 1, longer, from)
  {
    if iterations[n].pollError.None? {
      TakesLater(between, longer, |run| - 1, from, Claims(iterations[n].clock(0)));
    }
    forall i | 0 <= i < n && iterations[i].pollError.None? ensures Takes(longer, from, Claims(iterations[i].clock(0))) {
      TakesLater(run, longer, from, from, Claims(iterations[i].clock(0)));
    }
  }

  /** An unexpected error keeps the answer from being recorded, or comes from a result that cannot be looked at. */
  predicate Unanswerable(env: Iteration) {
    env.errorAfterPost || (env.reply.Http? && env.reply.status == 200)
  }

  lemma AllAskedLater(jobs: seq<Job>, run: seq<System>, longer: seq<System>, from: nat, env: Iteration)
    requires AllAsked(jobs, run, from, env) && run <= longer
    ensures AllAsked(jobs, longer, from, env)
  {
    forall i | 0 <= i < |jobs| && jobs[i].status.Running? && Pointer(jobs[i]).Some?
      ensures Asked(longer, from, i + 1, env)
    {
      assert Asked(run, from, i + 1, env);
      var k: nat :| Takes(run, from, Asking(i + 1, env, k));
      TakesLater(run, longer, from, from, Asking(i + 1, env, k));
    }
  }

  /** When nothing can be claimed, nothing is queued any more. */
  lemma NothingQueued(tables: Tables, now: Time)
    requires Consistent(tables)
    ensures Claim(tables, now).1.None? ==> forall job <- Claim(tables, now).0.jobs :: job.status != Queued
  {
    ClaimTakesToday(tables, now);
    var after := Claim(tables, now).0.jobs;
    forall job | job in after && Claim(tables, now).1.None? ensures job.status != Queued {
      var i :| 0 <= i < |after| && after[i] == job;
      assert tables.jobs[i] in tables.jobs;
    }
  }

  /** A request only ever appends rows. */
  lemma EnqueueAppends(tables: Tables, contentId: int, requestId: string, title: string, now: Time)
    ensures tables.jobs <= Enqueue(tables, contentId, requestId, title, now).0.jobs
  {
  }

  lemma InterruptLeavesNoneUnacknowledged(history: seq<System>, now: Time)
    requires IsRun(history) && L.Alive(Last(history).worker)
    ensures forall job <- Apply(Last(history), Interrupts(now)).tables.jobs :: !Unacknowledged(job)
  {
    RunInv(history, |history| - 1);
    InterruptStep(Last(history), Interrupts(now));
  }

  lemma OpenLeavesNoneUnacknowledged(history: seq<System>, now: Time)
    requires IsRun(history) && Last(history).worker.Off?
    ensures forall job <- Apply(Last(history), Opens(now)).tables.jobs :: !Unacknowledged(job)
  {
    RunInv(history, |history| - 1);
    InterruptStep(Last(history), Opens(now));
  }
}
