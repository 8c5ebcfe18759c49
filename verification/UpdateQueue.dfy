/**
  The durable update queue: its two tables, and what each transaction of the store does to them.
  Every transaction is atomic, so each is a function from the tables before to the tables after.
  `QueueStore` is the store itself; its methods are proved to perform exactly these transactions.
 */
module UpdateQueue {
  import opened Wrappers
  import opened Json
  import opened WriterProtocol

  /** Milliseconds since the epoch. */
  type Time = int

  const MAX_ACTIVE_JOBS := 50

  /** The calendar day in Asia/Shanghai (UTC+8). */
  function BusinessDay(time: Time): int {
    (time + 28_800_000) / 86_400_000
  }

  datatype Status = Queued | Running | Succeeded | Failed

  datatype Stage = Waiting | Updating | Completed | Broken

  datatype Title = Given(text: string) | DefaultFor(contentId: int)

  /** The texts shown to the browser. */
  datatype Message = Uncertain | Expired | UpdateRejected | CommandUnfinished | HttpRejected(status: int)

  datatype Job = Job(
    id: nat,
    contentId: int,
    title: Title,
    status: Status,
    stage: Stage,
    createdAt: Time,
    updatedAt: Time,
    completedAt: Option<Time>,
    submittedDay: int,
    column: Option<Json>,
    error: Option<Message>,
    errorCode: Option<ErrorCode>)

  datatype Request = Request(requestId: string, jobId: nat, createdAt: Time)

  /** Jobs in id order: row i has id i + 1. Requests in insertion order. */
  datatype Tables = Tables(jobs: seq<Job>, requests: seq<Request>)

  const EMPTY: Tables := Tables([], [])

  /** The partial unique index: such a job bars its content from a second job. */
  predicate Active(job: Job) {
    job.status.Queued? || job.status.Running? || job.errorCode == Some(ResultUncertain)
  }

  function Pointer(job: Job): Option<Command> {
    StoredCommand(job.column, job.contentId)
  }

  /** Claimed, and neither finished nor acknowledged by the Writer. */
  predicate Unacknowledged(job: Job) {
    job.status.Running? && Pointer(job).None?
  }

  function CountActive(jobs: seq<Job>): nat {
    if jobs == [] then 0
    else CountActive(jobs[..|jobs| - 1]) + (if Active(jobs[|jobs| - 1]) then 1 else 0)
  }

  /* ----- queries ----- */

  function FindRequest(requests: seq<Request>, requestId: string): (found: Option<Request>)
    ensures found.Some? ==> found.value in requests && found.value.requestId == requestId
    ensures found.None? ==> forall request <- requests :: request.requestId != requestId
  {
    if requests == [] then None
    else if requests[0].requestId == requestId then Some(requests[0])
    else FindRequest(requests[1..], requestId)
  }

  function FindActive(jobs: seq<Job>, contentId: int): (found: Option<Job>)
    ensures found.Some? ==> found.value in jobs && found.value.contentId == contentId && Active(found.value)
    ensures found.None? ==> forall job <- jobs :: job.contentId == contentId ==> !Active(job)
  {
    if jobs == [] then None
    else if jobs[0].contentId == contentId && Active(jobs[0]) then Some(jobs[0])
    else FindActive(jobs[1..], contentId)
  }

  /** The lowest queued id. */
  function FirstQueued(jobs: seq<Job>, from: nat := 0): (found: Option<nat>)
    requires from <= |jobs|
    ensures found.Some? ==> from <= found.value < |jobs| && jobs[found.value].status.Queued?
    ensures found.Some? ==> forall i :: from <= i < found.value ==> !jobs[i].status.Queued?
    ensures found.None? ==> forall i :: from <= i < |jobs| ==> !jobs[i].status.Queued?
    decreases |jobs| - from
  {
    if from == |jobs| then None
    else if jobs[from].status.Queued? then Some(from)
    else FirstQueued(jobs, from + 1)
  }

  /** The request ids of a job in insertion order. */
  function RequestsOf(requests: seq<Request>, jobId: nat): seq<string> {
    if requests == [] then []
    else (if requests[0].jobId == jobId then [requests[0].requestId] else []) + RequestsOf(requests[1..], jobId)
  }

  /* ----- row updates ----- */

  function NewJob(id: nat, contentId: int, title: string, now: Time): Job {
    Job(id, contentId, if title == "" then DefaultFor(contentId) else Given(title), Queued, Waiting, now, now, None,
        BusinessDay(now), None, None, None)
  }

  function Expire(job: Job, now: Time): Job {
    if job.status.Queued? && job.submittedDay != BusinessDay(now) then
      job.(status := Failed, stage := Broken, updatedAt := now, completedAt := Some(now),
           error := Some(Expired), errorCode := Some(QueueExpired))
    else job
  }

  function ExpireAll(jobs: seq<Job>, now: Time): (expired: seq<Job>)
    ensures |expired| == |jobs|
    ensures forall i :: 0 <= i < |jobs| ==> expired[i] == Expire(jobs[i], now)
  {
    seq(|jobs|, i requires 0 <= i < |jobs| => Expire(jobs[i], now))
  }

  function Claimed(job: Job, now: Time): Job {
    job.(status := Running, stage := Updating, updatedAt := now)
  }

  function Interrupted(job: Job, now: Time): Job {
    if Unacknowledged(job) then
      job.(status := Failed, stage := Broken, updatedAt := now, completedAt := Some(now),
           error := Some(Uncertain), errorCode := Some(ResultUncertain))
    else job
  }

  /** How a job ends. */
  datatype Ending = Ending(result: Option<Json>, error: Option<Message>, code: Option<ErrorCode>)

  predicate Succeeds(ending: Ending) {
    && ending.result.Some? && ending.result.value.Obj?
    && IsText(Get(ending.result.value, "status"), {"succeeded", "partial"})
    && ending.error.None?
  }

  function Finished(job: Job, ending: Ending, now: Time): Job {
    job.(status := if Succeeds(ending) then Succeeded else Failed,
         stage := if Succeeds(ending) then Completed else Broken,
         updatedAt := now, completedAt := Some(now),
         column := FinishColumn(Pointer(job), ending.result),
         error := ending.error, errorCode := ending.code)
  }

  /* ----- transactions ----- */

  datatype Submission = Accepted(jobId: nat) | Conflict | Busy

  /** A repeated request id returns its job; an active job absorbs the request; otherwise a new job is queued. */
  function Enqueue(tables: Tables, contentId: int, requestId: string, title: string, now: Time): (Tables, Submission) {
    var repeated := FindRequest(tables.requests, requestId);
    if repeated.Some? && 1 <= repeated.value.jobId <= |tables.jobs| then
      var job := tables.jobs[repeated.value.jobId - 1];
      (tables, if job.contentId != contentId then Conflict else Submission.Accepted(job.id))
    else
      var active := FindActive(tables.jobs, contentId);
      if active.Some? then
        (tables.(requests := tables.requests + [Request(requestId, active.value.id, now)]),
          Submission.Accepted(active.value.id))
      else if CountActive(tables.jobs) >= MAX_ACTIVE_JOBS then
        (tables, Busy)
      else
        var id := |tables.jobs| + 1;
        (Tables(tables.jobs + [NewJob(id, contentId, title, now)], tables.requests + [Request(requestId, id, now)]),
         Submission.Accepted(id))
  }

  /** Fails the jobs of earlier days, then starts the oldest remaining one. */
  function Claim(tables: Tables, now: Time): (Tables, Option<nat>) {
    var jobs := ExpireAll(tables.jobs, now);
    match FirstQueued(jobs)
    case None => (tables.(jobs := jobs), None)
    case Some(i) => (tables.(jobs := jobs[i := Claimed(jobs[i], now)]), Some(jobs[i].id))
  }

  predicate IsRunning(jobs: seq<Job>, jobId: nat) {
    1 <= jobId <= |jobs| && jobs[jobId - 1].status.Running?
  }

  const COMMAND_STATUSES: set<string> := {"pending", "running", "blocked", "succeeded", "partial", "failed"}

  /** The pointer in an acknowledgement body, if it is one for this content. */
  function Acknowledgement(body: Json, contentId: int): Option<Command> {
    if body.Obj? && Get(body, "kind") == Str("manual_update") && IsText(Get(body, "status"), COMMAND_STATUSES) then
      WriterCommand(Obj(map["contract" := Str(COMMAND_CONTRACT), "run_id" := Get(body, "run_id"),
                            "content_id" := Get(body, "content_id")]), contentId)
    else None
  }

  function Accept(tables: Tables, jobId: nat, body: Json, now: Time): (Tables, bool) {
    if !IsRunning(tables.jobs, jobId) then (tables, false)
    else
      var job := tables.jobs[jobId - 1];
      match Acknowledgement(body, job.contentId)
      case None => (tables, false)
      case Some(command) =>
        if Pointer(job).Some? then (tables, Pointer(job).value == command)
        else (tables.(jobs := tables.jobs[jobId - 1 := job.(column := PointerColumn(command), updatedAt := now)]), true)
  }

  function Finish(tables: Tables, jobId: nat, ending: Ending, now: Time): Tables {
    if !IsRunning(tables.jobs, jobId) then tables
    else tables.(jobs := tables.jobs[jobId - 1 := Finished(tables.jobs[jobId - 1], ending, now)])
  }

  function InterruptAll(jobs: seq<Job>, now: Time): (interrupted: seq<Job>)
    ensures |interrupted| == |jobs|
    ensures forall i :: 0 <= i < |jobs| ==> interrupted[i] == Interrupted(jobs[i], now)
  {
    seq(|jobs|, i requires 0 <= i < |jobs| => Interrupted(jobs[i], now))
  }

  function MarkInterrupted(tables: Tables, now: Time): Tables {
    tables.(jobs := InterruptAll(tables.jobs, now))
  }

  /* ----- the table invariant ----- */

  /** The columns of a row agree with its status, and a stored result is a sanitised one. */
  predicate WellFormedJob(job: Job) {
    match job.status
    case Queued => job.stage.Waiting? && job.column.None? && job.error.None? && job.errorCode.None?
    case Running =>
      && job.stage.Updating? && job.error.None? && job.errorCode.None?
      && (job.column.Some? ==> Pointer(job).Some? && job.column == PointerColumn(Pointer(job).value))
    case Succeeded => job.stage.Completed? && job.error.None? && job.errorCode.None?
    case Failed => job.stage.Broken? && job.error.Some? && job.errorCode.Some?
  }

  /** What the browser is shown of a result is a sanitised one, or nothing. */
  ghost predicate PublicIsSafe(job: Job) {
    PublicResult(job.column, job.contentId).Null? || IsSafe(PublicResult(job.column, job.contentId))
  }

  ghost predicate AtMostOneActive(jobs: seq<Job>) {
    forall i, j :: 0 <= i < j < |jobs| && jobs[i].contentId == jobs[j].contentId ==>
      !(Active(jobs[i]) && Active(jobs[j]))
  }

  ghost predicate Consistent(tables: Tables) {
    && (forall i :: 0 <= i < |tables.jobs| ==>
      tables.jobs[i].id == i + 1 && WellFormedJob(tables.jobs[i]) && PublicIsSafe(tables.jobs[i]))
    && AtMostOneActive(tables.jobs)
    && CountActive(tables.jobs) <= MAX_ACTIVE_JOBS
    && (forall i, j :: 0 <= i < j < |tables.requests| ==> tables.requests[i].requestId != tables.requests[j].requestId)
    && (forall request <- tables.requests :: 1 <= request.jobId <= |tables.jobs|)
    && (forall id :: 1 <= id <= |tables.jobs| ==> RequestsOf(tables.requests, id) != [])
  }

  /* ----- counting active rows ----- */

  lemma {:induction false} CountActiveUpdate(jobs: seq<Job>, i: nat, job: Job)
    requires i < |jobs|
    ensures CountActive(jobs[i := job])
            == CountActive(jobs) - (if Active(jobs[i]) then 1 else 0) + (if Active(job) then 1 else 0)
  {
    var last := |jobs| - 1;
    if i < last {
      assert jobs[i := job][..last] == jobs[..last][i := job];
      CountActiveUpdate(jobs[..last], i, job);
    } else {
      assert jobs[i := job][..last] == jobs[..last];
    }
  }

  lemma {:induction false} CountActiveMonotone(jobs: seq<Job>, jobs': seq<Job>)
    requires |jobs| == |jobs'|
    requires forall i :: 0 <= i < |jobs| ==> Active(jobs'[i]) ==> Active(jobs[i])
    ensures CountActive(jobs') <= CountActive(jobs)
  {
    if jobs != [] {
      CountActiveMonotone(jobs[..|jobs| - 1], jobs'[..|jobs| - 1]);
    }
  }

  lemma {:induction false} RequestsOfAppend(requests: seq<Request>, request: Request, jobId: nat)
    ensures RequestsOf(requests + [request], jobId)
            == RequestsOf(requests, jobId) + (if request.jobId == jobId then [request.requestId] else [])
  {
    if requests == [] {
      assert requests + [request] == [request];
    } else {
      assert (requests + [request])[1..] == requests[1..] + [request];
      RequestsOfAppend(requests[1..], request, jobId);
    }
  }

  /* ----- every transaction keeps the invariant ----- */

  lemma RequestsServed(requests: seq<Request>, request: Request, n: nat)
    requires forall id :: 1 <= id <= n && id != request.jobId ==> RequestsOf(requests, id) != []
    ensures forall id :: 1 <= id <= n ==> RequestsOf(requests + [request], id) != []
  {
    forall id | 1 <= id <= n ensures RequestsOf(requests + [request], id) != [] {
      RequestsOfAppend(requests, request, id);
    }
  }

  lemma RequestAppended(tables: Tables, request: Request)
    requires Consistent(tables) && 1 <= request.jobId <= |tables.jobs|
    requires forall other <- tables.requests :: other.requestId != request.requestId
    ensures Consistent(tables.(requests := tables.requests + [request]))
  {
    RequestsServed(tables.requests, request, |tables.jobs|);
  }

  lemma JobAppended(tables: Tables, job: Job, request: Request)
    requires Consistent(tables) && job.id == request.jobId == |tables.jobs| + 1 && WellFormedJob(job)
      && PublicIsSafe(job)
    requires forall other <- tables.jobs :: other.contentId == job.contentId ==> !Active(other)
    requires CountActive(tables.jobs) < MAX_ACTIVE_JOBS
    requires forall other <- tables.requests :: other.requestId != request.requestId
    ensures Consistent(Tables(tables.jobs + [job], tables.requests + [request]))
  {
    assert (tables.jobs + [job])[..|tables.jobs|] == tables.jobs;
    RequestsServed(tables.requests, request, |tables.jobs| + 1);
  }

  lemma EnqueueConsistent(tables: Tables, contentId: int, requestId: string, title: string, now: Time)
    requires Consistent(tables)
    ensures Consistent(Enqueue(tables, contentId, requestId, title, now).0)
  {
    var after := Enqueue(tables, contentId, requestId, title, now).0;
    if after != tables {
      var request := after.requests[|tables.requests|];
      assert after.requests == tables.requests + [request];
      if after.jobs == tables.jobs {
        RequestAppended(tables, request);
      } else {
        JobAppended(tables, NewJob(|tables.jobs| + 1, contentId, title, now), request);
      }
    }
  }

  /** Replacing rows by rows that are active only where the old ones were keeps the invariant. */
  lemma RowsConsistent(tables: Tables, jobs: seq<Job>)
    requires Consistent(tables)
    requires |jobs| == |tables.jobs|
    requires forall i :: 0 <= i < |jobs| ==>
      && jobs[i].id == tables.jobs[i].id && jobs[i].contentId == tables.jobs[i].contentId
      && WellFormedJob(jobs[i]) && PublicIsSafe(jobs[i]) && (Active(jobs[i]) ==> Active(tables.jobs[i]))
    ensures Consistent(tables.(jobs := jobs))
  {
    CountActiveMonotone(tables.jobs, jobs);
  }

  lemma ClaimConsistent(tables: Tables, now: Time)
    requires Consistent(tables)
    ensures Consistent(Claim(tables, now).0)
  {
    RowsConsistent(tables, Claim(tables, now).0.jobs);
  }

  lemma AcceptConsistent(tables: Tables, jobId: nat, body: Json, now: Time)
    requires Consistent(tables)
    ensures Consistent(Accept(tables, jobId, body, now).0)
  {
    var after := Accept(tables, jobId, body, now).0;
    if after != tables {
      var contentId := tables.jobs[jobId - 1].contentId;
      PointerRoundTrip(Acknowledgement(body, contentId).value, contentId);
      RowsConsistent(tables, after.jobs);
    }
  }

  /** An ending with a sanitised result, whose error and code are both present or both absent as the status demands. */
  ghost predicate ProperEnding(ending: Ending) {
    && (ending.result.Some? ==> IsSafe(ending.result.value))
    && (Succeeds(ending) ==> ending.code.None?)
    && (!Succeeds(ending) ==> ending.error.Some? && ending.code.Some?)
  }

  lemma FinishConsistent(tables: Tables, jobId: nat, ending: Ending, now: Time)
    requires Consistent(tables) && ProperEnding(ending)
    ensures Consistent(Finish(tables, jobId, ending, now))
  {
    var after := Finish(tables, jobId, ending, now);
    if after != tables {
      var job := tables.jobs[jobId - 1];
      ColumnRoundTrip(Pointer(job), ending.result, job.contentId);
      RowsConsistent(tables, after.jobs);
    }
  }

  lemma MarkInterruptedConsistent(tables: Tables, now: Time)
    requires Consistent(tables)
    ensures Consistent(MarkInterrupted(tables, now))
  {
    RowsConsistent(tables, MarkInterrupted(tables, now).jobs);
  }

  /* ----- what one transaction promises its caller ----- */

  /** Repeating a recorded request never writes: it names the same job again, or is refused for another content. */
  lemma RequestIdempotent(tables: Tables, contentId: int, requestId: string, title: string, now: Time, request: Request)
    requires Consistent(tables)
    requires request in tables.requests && request.requestId == requestId
    ensures Enqueue(tables, contentId, requestId, title, now)
            == (tables, if tables.jobs[request.jobId - 1].contentId == contentId then Submission.Accepted(request.jobId)
              else Conflict)
  {
    var found := FindRequest(tables.requests, requestId).value;
    var i :| 0 <= i < |tables.requests| && tables.requests[i] == request;
    var j :| 0 <= j < |tables.requests| && tables.requests[j] == found;
    assert i == j;
  }

  /** An accepted request is recorded, for an active or already known job of exactly its content. */
  lemma AcceptedIsRecorded(tables: Tables, contentId: int, requestId: string, title: string, now: Time)
    requires Consistent(tables)
    requires Enqueue(tables, contentId, requestId, title, now).1.Accepted?
    ensures var (after, submission) := Enqueue(tables, contentId, requestId, title, now);
      && 1 <= submission.jobId <= |after.jobs|
      && after.jobs[submission.jobId - 1].contentId == contentId
      && exists request <- after.requests :: request.requestId == requestId && request.jobId == submission.jobId
  {
    var (after, submission) := Enqueue(tables, contentId, requestId, title, now);
    var repeated := FindRequest(tables.requests, requestId);
    if repeated.None? {
      assert after.requests[|tables.requests|].requestId == requestId;
    }
  }

  /** The claimed job is the oldest queued one of today, and no queued job of another day is left. */
  lemma ClaimTakesToday(tables: Tables, now: Time)
    requires Consistent(tables)
    ensures var (after, claimed) := Claim(tables, now);
      && (forall job <- after.jobs :: job.status.Queued? ==> job.submittedDay == BusinessDay(now))
      && (claimed.None? <==> forall job <- tables.jobs :: job.status.Queued? ==> job.submittedDay != BusinessDay(now))
      && (claimed.Some? ==>
            && IsRunning(after.jobs, claimed.value) && Unacknowledged(after.jobs[claimed.value - 1])
            && tables.jobs[claimed.value - 1].status.Queued?
            && after.jobs[claimed.value - 1].submittedDay == BusinessDay(now)
            && forall job <- after.jobs :: job.status.Queued? ==> claimed.value < job.id)
  {
    var (after, claimed) := Claim(tables, now);
    var expired := ExpireAll(tables.jobs, now);
    forall i | 0 <= i < |expired|
      ensures expired[i].status.Queued? <==>
        tables.jobs[i].status.Queued? && tables.jobs[i].submittedDay == BusinessDay(now)
      ensures tables.jobs[i] in tables.jobs
    {
    }
    if claimed.None? {
      forall job | job in tables.jobs && job.status.Queued?
        ensures job.submittedDay != BusinessDay(now)
      {
        var i :| 0 <= i < |tables.jobs| && tables.jobs[i] == job;
        assert !expired[i].status.Queued?;
      }
    } else {
      assert tables.jobs[claimed.value - 1] in tables.jobs;
    }
  }
}
