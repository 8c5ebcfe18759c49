/**
  The store object that owns the two tables: its transactions, and the reads that browsers and the worker make.
 */
module QueueStore {
  import opened Wrappers
  import opened Json
  import opened WriterProtocol
  import opened UpdateQueue

  /* ----- reads ----- */

  datatype JobView = JobView(
    id: nat, contentId: int, title: Title, status: Status, stage: Stage, createdAt: Time, updatedAt: Time,
    completedAt: Option<Time>, error: Option<Message>, errorCode: Option<ErrorCode>,
    requestId: string, requestIds: seq<string>, result: Json, writerRunId: Option<int>)

  /** The public form of a row. Its first request is always shown, so a job without one could not be shown at all. */
  function Public(tables: Tables, jobId: nat): JobView
    requires 1 <= jobId <= |tables.jobs|
    requires RequestsOf(tables.requests, tables.jobs[jobId - 1].id) != []
  {
    var job := tables.jobs[jobId - 1];
    var requests := RequestsOf(tables.requests, job.id);
    JobView(job.id, job.contentId, job.title, job.status, job.stage, job.createdAt, job.updatedAt, job.completedAt,
            job.error, job.errorCode, requests[0], requests, PublicResult(job.column, job.contentId),
            if Pointer(job).Some? then Some(Pointer(job).value.runId) else None)
  }

  /** The rows whose activity is `wanted`, newest first. */
  function NewestFirst(jobs: seq<Job>, wanted: bool): seq<Job> {
    if jobs == [] then []
    else
      (if Active(jobs[|jobs| - 1]) == wanted then [jobs[|jobs| - 1]] else [])
      + NewestFirst(jobs[..|jobs| - 1], wanted)
  }

  /** LIMIT: a negative limit means none. */
  function Limit<T>(rows: seq<T>, limit: int): seq<T> {
    if limit < 0 || |rows| <= limit then rows else rows[..limit]
  }

  /** Active rows first, each part newest first. */
  function Listing(jobs: seq<Job>, limit: int): seq<Job> {
    Limit(NewestFirst(jobs, true) + NewestFirst(jobs, false), limit)
  }

  /** The running rows in id order. */
  function RunningRows(jobs: seq<Job>): seq<Job> {
    if jobs == [] then []
    else RunningRows(jobs[..|jobs| - 1]) + (if jobs[|jobs| - 1].status.Running? then [jobs[|jobs| - 1]] else [])
  }

  /** The acknowledged commands among some rows. */
  function Acknowledged(rows: seq<Job>): seq<(nat, Command)> {
    if rows == [] then []
    else
      Acknowledged(rows[..|rows| - 1])
      + (var row := rows[|rows| - 1]; if Pointer(row).Some? then [(row.id, Pointer(row).value)] else [])
  }

  lemma {:induction false} NewestFirstMembers(jobs: seq<Job>, wanted: bool)
    ensures forall job :: job in NewestFirst(jobs, wanted) <==> job in jobs && Active(job) == wanted
    ensures wanted ==> |NewestFirst(jobs, wanted)| == CountActive(jobs)
  {
    if jobs != [] {
      NewestFirstMembers(jobs[..|jobs| - 1], wanted);
      assert jobs == jobs[..|jobs| - 1] + [jobs[|jobs| - 1]];
    }
  }

  lemma {:induction false} RunningRowsMembers(jobs: seq<Job>)
    ensures forall job :: job in RunningRows(jobs) <==> job in jobs && job.status.Running?
    ensures |RunningRows(jobs)| <= CountActive(jobs)
  {
    if jobs != [] {
      RunningRowsMembers(jobs[..|jobs| - 1]);
      assert jobs == jobs[..|jobs| - 1] + [jobs[|jobs| - 1]];
    }
  }

  lemma {:induction false} AcknowledgedMembers(rows: seq<Job>)
    ensures forall id, command :: (id, command) in Acknowledged(rows)
              <==> exists row <- rows :: row.id == id && Pointer(row) == Some(command)
  {
    if rows != [] {
      var rest, last := rows[..|rows| - 1], rows[|rows| - 1];
      AcknowledgedMembers(rest);
      assert rows == rest + [last];
      forall id, command
        ensures (id, command) in Acknowledged(rows) <==>
          exists row <- rows :: row.id == id && Pointer(row) == Some(command)
      {
        if Pointer(last).Some? && id == last.id && Pointer(last) == Some(command) {
          assert last in rows;
        }
        if row :| row in rest && row.id == id && Pointer(row) == Some(command) {
          assert row in rows;
        }
      }
    }
  }

  /** With a limit of at least the job cap, no active job is ever missing from the list. */
  /** Active rows before the others, and among equals the newer one first. */
  predicate Before(first: Job, second: Job) {
    if Active(first) == Active(second) then first.id > second.id else Active(first)
  }

  lemma {:induction false} NewestFirstOf(jobs: seq<Job>, wanted: bool)
    requires forall i :: 0 <= i < |jobs| ==> jobs[i].id == i + 1
    ensures forall job <- NewestFirst(jobs, wanted) :: 1 <= job.id <= |jobs| && Active(job) == wanted
  {
    if jobs != [] { NewestFirstOf(jobs[..|jobs| - 1], wanted); }
  }

  predicate Descending(jobs: seq<Job>) {
    forall i, j :: 0 <= i < j < |jobs| ==> jobs[i].id > jobs[j].id
  }

  lemma {:induction false} NewestFirstOrdered(jobs: seq<Job>, wanted: bool)
    requires forall i :: 0 <= i < |jobs| ==> jobs[i].id == i + 1
    ensures Descending(NewestFirst(jobs, wanted))
  {
    if jobs != [] {
      var n := |jobs| - 1;
      var rest := NewestFirst(jobs[..n], wanted);
      NewestFirstOrdered(jobs[..n], wanted);
      NewestFirstOf(jobs[..n], wanted);
      var listed := NewestFirst(jobs, wanted);
      if Active(jobs[n]) == wanted {
        assert listed == [jobs[n]] + rest;
        forall i, j | 0 <= i < j < |listed| ensures listed[i].id > listed[j].id {
          assert rest[j - 1] in rest;
          if i > 0 { assert rest[i - 1].id > rest[j - 1].id; }
        }
      } else {
        assert listed == rest;
      }
    }
  }

  predicate Ordered(jobs: seq<Job>) {
    forall i, j :: 0 <= i < j < |jobs| ==> Before(jobs[i], jobs[j])
  }

  lemma OrderedParts(active: seq<Job>, rest: seq<Job>)
    requires Descending(active) && Descending(rest)
    requires (forall job <- active :: Active(job)) && forall job <- rest :: !Active(job)
    ensures Ordered(active + rest)
  {
    var all := active + rest;
    forall i, j | 0 <= i < j < |all| ensures Before(all[i], all[j]) {
      if i >= |active| {
        assert all[i] == rest[i - |active|] && all[j] == rest[j - |active|];
      } else if j >= |active| {
        assert all[i] == active[i] && all[j] == rest[j - |active|];
      } else {
        assert all[i] == active[i] && all[j] == active[j];
      }
    }
  }

  /** A listing without a limit holds every row once, in that order; a limit cuts it. */
  lemma ListingExactly(tables: Tables, limit: int)
    requires Consistent(tables)
    ensures var all := Listing(tables.jobs, -1);
      && (forall job :: job in all <==> job in tables.jobs) && Ordered(all)
      && (limit >= 0 ==> Listing(tables.jobs, limit) == if |all| <= limit then all else all[..limit])
  {
    NewestFirstMembers(tables.jobs, true);
    NewestFirstMembers(tables.jobs, false);
    NewestFirstOrdered(tables.jobs, true);
    NewestFirstOrdered(tables.jobs, false);
    OrderedParts(NewestFirst(tables.jobs, true), NewestFirst(tables.jobs, false));
  }

  lemma ListingShowsEveryActiveJob(tables: Tables, limit: int)
    requires Consistent(tables)
    requires limit < 0 || limit >= MAX_ACTIVE_JOBS
    ensures forall job <- tables.jobs :: Active(job) ==> job in Listing(tables.jobs, limit)
  {
    NewestFirstMembers(tables.jobs, true);
    var active, rest := NewestFirst(tables.jobs, true), NewestFirst(tables.jobs, false);
    forall job <- tables.jobs | Active(job)
      ensures job in Listing(tables.jobs, limit)
    {
      var i :| 0 <= i < |active| && active[i] == job;
      assert (active + rest)[i] == job;
      assert Listing(tables.jobs, limit)[i] == job;
    }
  }

  /** The row limit of the sweep never drops an acknowledged running job. */
  lemma SweepSeesEveryAcknowledgedJob(tables: Tables)
    requires Consistent(tables)
    ensures forall id, command ::
      (id, command) in Acknowledged(Limit(RunningRows(tables.jobs), MAX_ACTIVE_JOBS))
      <==> IsRunning(tables.jobs, id) && Pointer(tables.jobs[id - 1]) == Some(command)
  {
    var rows := RunningRows(tables.jobs);
    RunningRowsMembers(tables.jobs);
    assert Limit(rows, MAX_ACTIVE_JOBS) == rows;
    AcknowledgedMembers(rows);
    forall id, command
      ensures (id, command) in Acknowledged(rows)
              <==> IsRunning(tables.jobs, id) && Pointer(tables.jobs[id - 1]) == Some(command)
    {
      if IsRunning(tables.jobs, id) && Pointer(tables.jobs[id - 1]) == Some(command) {
        assert tables.jobs[id - 1] in rows;
      }
    }
  }

  /* ----- the object ----- */

  class QueueStore {
    var jobs: seq<Job>
    var requests: seq<Request>

    function Contents(): Tables
      reads this
    {
      Tables(jobs, requests)
    }

    /** A new, empty queue database. */
    constructor ()
      ensures Contents() == EMPTY
    {
      jobs, requests := [], [];
    }

    /** Only POSTs lacking a durable acknowledgement become uncertain. */
    method MarkInterruptedRows(now: Time)
      modifies this
      ensures Contents() == MarkInterrupted(old(Contents()), now)
    {
      var rows := jobs;
      for i := 0 to |rows|
        invariant requests == old(requests) && rows == old(jobs) && |jobs| == |rows|
        invariant forall k :: 0 <= k < i ==> jobs[k] == Interrupted(rows[k], now)
        invariant forall k :: i <= k < |rows| ==> jobs[k] == rows[k]
      {
        if rows[i].status.Running? && StoredCommand(rows[i].column, rows[i].contentId).None? {
          jobs := jobs[i := jobs[i].(status := Failed, stage := Broken, updatedAt := now, completedAt := Some(now),
                                     error := Some(Uncertain), errorCode := Some(ResultUncertain))];
        }
      }
      assert jobs == InterruptAll(rows, now);
    }

    /** Accepts, absorbs or refuses a request. */
    method Submit(contentId: int, requestId: string, title: string, now: Time)
      returns (submission: Submission, view: Option<JobView>)
      requires Consistent(Contents())
      modifies this
      ensures (Contents(), submission) == Enqueue(old(Contents()), contentId, requestId, title, now)
      ensures Consistent(Contents())
      ensures submission.Accepted? ==>
        1 <= submission.jobId <= |jobs| && view == Some(Public(Contents(), submission.jobId))
      ensures !submission.Accepted? ==> view == None && Contents() == old(Contents())
    {
      EnqueueConsistent(Contents(), contentId, requestId, title, now);
      AcceptedIsRecordedIfAny(Contents(), contentId, requestId, title, now);
      submission := Store(contentId, requestId, title, now);
      view := if submission.Accepted? then Some(Public(Contents(), submission.jobId)) else None;
    }

    /** The transaction behind a submission. */
    method Store(contentId: int, requestId: string, title: string, now: Time) returns (submission: Submission)
      modifies this
      ensures (Contents(), submission) == Enqueue(old(Contents()), contentId, requestId, title, now)
    {
      var repeated := FindRequest(requests, requestId);
      if repeated.Some? && 1 <= repeated.value.jobId <= |jobs| {
        var job := jobs[repeated.value.jobId - 1];
        return if job.contentId != contentId then Conflict else Submission.Accepted(job.id);
      }
      var active := FindActive(jobs, contentId);
      var jobId: nat;
      if active.Some? {
        jobId := active.value.id;
      } else {
        if CountActive(jobs) >= MAX_ACTIVE_JOBS {
          return Busy;
        }
        jobId := |jobs| + 1;
        jobs := jobs + [NewJob(jobId, contentId, title, now)];
      }
      requests := requests + [Request(requestId, jobId, now)];
      return Submission.Accepted(jobId);
    }

    /** Starts the oldest job of today, after failing those of earlier days. */
    method ClaimNext(now: Time) returns (claimed: Option<nat>)
      modifies this
      ensures (Contents(), claimed) == Claim(old(Contents()), now)
    {
      jobs := ExpireAll(jobs, now);
      var row := FirstQueued(jobs);
      if row.None? {
        return None;
      }
      claimed := Some(jobs[row.value].id);
      jobs := jobs[row.value := Claimed(jobs[row.value], now)];
    }

    /** Stores the pointer of an acknowledgement, once. */
    method AcceptCommand(jobId: nat, body: Json, now: Time) returns (accepted: bool)
      modifies this
      ensures (Contents(), accepted) == Accept(old(Contents()), jobId, body, now)
    {
      if !IsRunning(jobs, jobId) {
        return false;
      }
      var job := jobs[jobId - 1];
      var command := Acknowledgement(body, job.contentId);
      if command.None? {
        return false;
      }
      var previous := StoredCommand(job.column, job.contentId);
      if previous.Some? {
        return previous == command;
      }
      jobs := jobs[jobId - 1 := job.(column := PointerColumn(command.value), updatedAt := now)];
      return true;
    }

    /** Ends a running job; any other job is left alone. */
    method FinishJob(jobId: nat, ending: Ending, now: Time)
      modifies this
      ensures Contents() == Finish(old(Contents()), jobId, ending, now)
    {
      if !IsRunning(jobs, jobId) {
        return;
      }
      var job := jobs[jobId - 1];
      var succeeded := Succeeds(ending);
      var command := StoredCommand(job.column, job.contentId);
      jobs := jobs[jobId - 1 := job.(
        status := if succeeded then Succeeded else Failed,
        stage := if succeeded then Completed else Broken,
        updatedAt := now, completedAt := Some(now),
        column := FinishColumn(command, ending.result),
        error := ending.error, errorCode := ending.code)];
    }

    /** The acknowledged commands that the worker still has to follow up, in id order. */
    method PendingCommands() returns (pending: seq<(nat, Command)>)
      requires Consistent(Contents())
      ensures forall id, command :: (id, command) in pending
                <==> IsRunning(jobs, id) && Pointer(jobs[id - 1]) == Some(command)
      ensures AscendingIds(pending)
    {
      SweepSeesEveryAcknowledgedJob(Contents());
      AcknowledgedAscends(jobs, Limit(RunningRows(jobs), MAX_ACTIVE_JOBS));
      pending := Acknowledged(Limit(RunningRows(jobs), MAX_ACTIVE_JOBS));
    }

    /** The rows shown to browsers. */
    method List(limit: int) returns (views: seq<JobView>)
      requires Consistent(Contents())
      ensures |views| == |Listing(jobs, limit)|
      ensures forall i :: 0 <= i < |views| ==>
        1 <= Listing(jobs, limit)[i].id <= |jobs| && views[i] == Public(Contents(), Listing(jobs, limit)[i].id)
    {
      var tables := Contents();
      var rows := Listing(tables.jobs, limit);
      ListingRows(tables, limit);
      views := seq(|rows|, i requires 0 <= i < |rows| => Public(tables, rows[i].id));
    }
  }

  /** Every listed row is a stored row that can be shown. */
  lemma ListingRows(tables: Tables, limit: int)
    requires Consistent(tables)
    ensures var rows := Listing(tables.jobs, limit); forall i :: 0 <= i < |rows| ==>
      && 1 <= rows[i].id <= |tables.jobs| && tables.jobs[rows[i].id - 1] == rows[i]
      && RequestsOf(tables.requests, rows[i].id) != []
  {
    NewestFirstMembers(tables.jobs, true);
    NewestFirstMembers(tables.jobs, false);
    var rows := Listing(tables.jobs, limit);
    forall i | 0 <= i < |rows|
      ensures rows[i] in tables.jobs
    {
      assert rows[i] in NewestFirst(tables.jobs, true) + NewestFirst(tables.jobs, false);
    }
  }

  lemma AcceptedIsRecordedIfAny(tables: Tables, contentId: int, requestId: string, title: string, now: Time)
    requires Consistent(tables)
    ensures var (after, submission) := Enqueue(tables, contentId, requestId, title, now);
      submission.Accepted? ==>
        1 <= submission.jobId <= |after.jobs| && RequestsOf(after.requests, submission.jobId) != []
  {
    EnqueueConsistent(tables, contentId, requestId, title, now);
    if Enqueue(tables, contentId, requestId, title, now).1.Accepted? {
      AcceptedIsRecorded(tables, contentId, requestId, title, now);
    }
  }

  ghost predicate Ascending(rows: seq<Job>) {
    forall i, j :: 0 <= i < j < |rows| ==> rows[i].id < rows[j].id
  }

  ghost predicate AscendingIds(pending: seq<(nat, Command)>) {
    forall i, j :: 0 <= i < j < |pending| ==> pending[i].0 < pending[j].0
  }

  lemma {:induction false} RunningRowsAscend(jobs: seq<Job>)
    requires Ascending(jobs)
    ensures Ascending(RunningRows(jobs))
  {
    if jobs != [] {
      var rest := jobs[..|jobs| - 1];
      RunningRowsAscend(rest);
      RunningRowsMembers(rest);
      var rows := RunningRows(rest);
      forall i | 0 <= i < |rows|
        ensures rows[i].id < jobs[|jobs| - 1].id
      {
        assert rows[i] in rest;
      }
    }
  }

  lemma {:induction false} AcknowledgedAscend(rows: seq<Job>)
    requires Ascending(rows)
    ensures AscendingIds(Acknowledged(rows))
  {
    if rows != [] {
      var rest := rows[..|rows| - 1];
      AcknowledgedAscend(rest);
      AcknowledgedMembers(rest);
      var pending := Acknowledged(rest);
      forall i | 0 <= i < |pending|
        ensures pending[i].0 < rows[|rows| - 1].id
      {
        assert (pending[i].0, pending[i].1) in Acknowledged(rest);
      }
    }
  }

  lemma AcknowledgedAscends(jobs: seq<Job>, rows: seq<Job>)
    requires forall i :: 0 <= i < |jobs| ==> jobs[i].id == i + 1
    requires rows == Limit(RunningRows(jobs), MAX_ACTIVE_JOBS)
    ensures AscendingIds(Acknowledged(rows))
  {
    RunningRowsAscend(jobs);
    AcknowledgedAscend(rows);
  }
}
