/**
  What the Writer's answers, the state of its commands, and a browser's request lead to, by their literal values: which
  status codes leave a doubt, which end a job, and what bars a content.
 */
module QueueAnswers {
  import opened Wrappers
  import opened Json
  import opened WriterProtocol
  import opened UpdateQueue
  import opened QueueRuns
  import opened QueueTheorems
  import L = QueueLedger

  /* ----- the answer to a POST ----- */

  /** No answer, or one that comes from a gateway or a server error, or that the Writer does not give. */
  predicate Doubtful(reply: PostReply) {
    || reply.Lost?
    || (reply.Http? && reply.status != 200 && reply.status != 202 && reply.status != 400 && reply.status != 401
        && reply.status != 403 && reply.status != 404 && reply.status != 409 && reply.status != 422
          && reply.status != 429)
  }

  lemma ServerErrorsAreDoubtful(reply: PostReply)
    ensures reply.Http? && reply.status >= 500 ==> Doubtful(reply)
    ensures reply.Http? && 300 <= reply.status < 400 ==> Doubtful(reply)
  {
  }

  /** The row says that nobody knows how the job ended. */
  predicate InDoubt(job: Job) {
    && job.status.Failed? && job.errorCode == Some(ResultUncertain) && job.error == Some(Uncertain)
    && PublicResult(job.column, job.contentId) == Null
  }

  /** The row says how the job ended. */
  predicate Over(job: Job, status: Status, error: Option<Message>, code: Option<ErrorCode>) {
    job.status == status && job.error == error && job.errorCode == code
  }

  /** The job of the POST ends in doubt, and so it is recorded. */
  ghost predicate LeftInDoubt(after: System, id: nat) {
    && 1 <= id <= |after.tables.jobs| && InDoubt(after.tables.jobs[id - 1])
    && id in after.fates && after.fates[id].Ambiguous?
  }

  /** The job of the POST is over, and so it is recorded. */
  ghost predicate LeftOver(after: System, id: nat, status: Status, error: Option<Message>, code: Option<ErrorCode>) {
    && 1 <= id <= |after.tables.jobs| && Over(after.tables.jobs[id - 1], status, error, code)
    && id in after.fates && after.fates[id].Definite?
  }

  /** The body names the Writer's run for this content. */
  predicate Acknowledges(body: Json, contentId: int) {
    && body.Obj?
    && Get(body, "kind") == Str("manual_update")
    && Get(body, "status") in {Str("pending"), Str("running"), Str("blocked"), Str("succeeded"), Str("partial"),
      Str("failed")}
    && Get(body, "run_id").Int? && Get(body, "run_id").number >= 1 && Get(body, "content_id") == Int(contentId)
  }

  /** Only the job of the POST changes. */
  predicate OthersSame(before: Tables, after: Tables, id: nat) {
    && after.requests == before.requests && |after.jobs| == |before.jobs|
    && forall i :: 0 <= i < |before.jobs| && i != id - 1 ==> after.jobs[i] == before.jobs[i]
  }

  ghost predicate OthersUntouched(before: System, after: System, id: nat) {
    OthersSame(before.tables, after.tables, id)
  }

  lemma DoubtfulAnswer(s: System, reply: PostReply, now: Time)
    requires SystemInv(s) && Enabled(s, Replies(reply, now)) && Doubtful(reply)
    ensures var s' := Apply(s, Replies(reply, now));
      LeftInDoubt(s', s.worker.jobId) && OthersUntouched(s, s', s.worker.jobId)
  {
    WorkersKind(s);
    ReplyRow(s.tables, s.worker.jobId, reply, now);
  }

  lemma RejectedAnswer(s: System, status: int, body: Option<Json>, now: Time)
    requires SystemInv(s) && Enabled(s, Replies(Http(status, body), now))
    requires status in {400, 401, 403, 404, 409, 422, 429}
    ensures var s' := Apply(s, Replies(Http(status, body), now));
      && LeftOver(s', s.worker.jobId, Failed, Some(HttpRejected(status)), Some(WriterHttp(status)))
      && !Active(s'.tables.jobs[s.worker.jobId - 1]) && OthersUntouched(s, s', s.worker.jobId)
  {
    WorkersKind(s);
    ReplyRow(s.tables, s.worker.jobId, Http(status, body), now);
  }

  lemma AcceptedRow(tables: Tables, id: nat, body: Option<Json>, now: Time)
    requires Consistent(tables) && IsRunning(tables.jobs, id) && Unacknowledged(tables.jobs[id - 1])
    requires HandleReply(tables, id, Http(202, body), now).Some?
    ensures var after, before := HandleReply(tables, id, Http(202, body), now).value, tables.jobs[id - 1];
      && OthersSame(tables, after, id)
      && if body.Some? && Acknowledges(body.value, before.contentId)
         then
           && after.jobs[id - 1].status.Running?
           && Pointer(after.jobs[id - 1]) == Some(Command(Get(body.value, "run_id").number, before.contentId))
         else InDoubt(after.jobs[id - 1])
  {
    if body.Some? { AcknowledgementMeans(body.value, tables.jobs[id - 1].contentId); }
  }

  lemma AcceptedAnswer(s: System, body: Option<Json>, now: Time)
    requires SystemInv(s) && Enabled(s, Replies(Http(202, body), now))
    ensures var s' := Apply(s, Replies(Http(202, body), now));
      var id := s.worker.jobId;
      && OthersUntouched(s, s', id)
      && if body.Some? && Acknowledges(body.value, s.tables.jobs[id - 1].contentId)
         then
           && IsRunning(s'.tables.jobs, id) && id in s'.fates && s'.fates[id].Acked?
           && Pointer(s'.tables.jobs[id - 1])
                == Some(Command(Get(body.value, "run_id").number, s.tables.jobs[id - 1].contentId))
         else LeftInDoubt(s', id)
  {
    var id := s.worker.jobId;
    InFlightRow(s);
    AcceptedRow(s.tables, id, body, now);
    if body.Some? { AcknowledgementMeans(body.value, s.tables.jobs[id - 1].contentId); }
  }

  lemma InFlightRow(s: System)
    requires SystemInv(s) && s.worker.InFlight? && 1 <= s.worker.jobId <= |s.tables.jobs|
    ensures IsRunning(s.tables.jobs, s.worker.jobId) && Unacknowledged(s.tables.jobs[s.worker.jobId - 1])
    ensures Consistent(s.tables)
  {
    WorkersKind(s);
  }

  lemma AcknowledgementMeans(body: Json, contentId: int)
    ensures Acknowledgement(body, contentId) ==
      if Acknowledges(body, contentId) then Some(Command(Get(body, "run_id").number, contentId)) else None
    ensures Acknowledges(body, contentId) ==>
      StoredCommand(PointerColumn(Command(Get(body, "run_id").number, contentId)), contentId)
        == Some(Command(Get(body, "run_id").number, contentId))
  {
    if Acknowledges(body, contentId) { PointerRoundTrip(Command(Get(body, "run_id").number, contentId), contentId); }
  }

  lemma ResultRow(tables: Tables, id: nat, body: Option<Json>, now: Time)
    requires Consistent(tables) && IsRunning(tables.jobs, id) && Unacknowledged(tables.jobs[id - 1])
    requires HandleReply(tables, id, Http(200, body), now).Some?
    ensures var after := HandleReply(tables, id, Http(200, body), now).value;
      && OthersSame(tables, after, id)
      && if body.Some? && SafeResult(body.value).Accepted?
         then
           && PublicResult(after.jobs[id - 1].column, after.jobs[id - 1].contentId) == SafeResult(body.value).result
           && if Get(body.value, "status") == Str("failed")
              then Over(after.jobs[id - 1], Failed, Some(UpdateRejected), Some(UpdateFailed))
              else Over(after.jobs[id - 1], Succeeded, None, None)
         else InDoubt(after.jobs[id - 1])
  {
    if body.Some? && SafeResult(body.value).Accepted? {
      var result := SafeResult(body.value).result;
      SafeFieldsKeys(body.value);
      SafeResultShape(result);
      assert Get(result, "status") == Get(body.value, "status");
      ColumnRoundTrip(None, Some(result), tables.jobs[id - 1].contentId);
    }
  }

  lemma AnsweredWithResult(s: System, body: Option<Json>, now: Time)
    requires SystemInv(s) && Enabled(s, Replies(Http(200, body), now))
    ensures var s' := Apply(s, Replies(Http(200, body), now));
      var id := s.worker.jobId;
      && OthersUntouched(s, s', id)
      && if body.Some? && SafeResult(body.value).Accepted?
         then
           && PublicResult(s'.tables.jobs[id - 1].column, s'.tables.jobs[id - 1].contentId)
             == SafeResult(body.value).result
           && if Get(body.value, "status") == Str("failed")
              then LeftOver(s', id, Failed, Some(UpdateRejected), Some(UpdateFailed))
              else LeftOver(s', id, Succeeded, None, None)
         else LeftInDoubt(s', id)
  {
    InFlightRow(s);
    ResultRow(s.tables, s.worker.jobId, body, now);
  }

  /** After a doubtful answer, no later POST of the run is for the content of that job. */
  lemma DoubtfulAnswerBars(run: seq<System>, i: nat, j: nat, reply: PostReply, now: Time)
    requires IsRun(run) && i < j < |run| && Doubtful(reply)
    requires Enabled(run[i], Replies(reply, now)) && run[i + 1] == Apply(run[i], Replies(reply, now))
    ensures forall k :: |run[i].posts| <= k < |run[j].posts| ==>
      run[j].posts[k].contentId != run[i].tables.jobs[run[i].worker.jobId - 1].contentId
  {
    RunInv(run, i);
    var id := run[i].worker.jobId;
    DoubtfulAnswer(run[i], reply, now);
    AmbiguousPostIsNeverReplayed(run, i + 1, j, id);
    SameContent(run, i, i + 1, id);
  }

  /* ----- the state of a command ----- */

  /** The payload speaks of this command and lists its work. */
  predicate SpeaksOf(payload: Json, command: Command) {
    && payload.Obj? && Get(payload, "kind") == Str("manual_update")
    && Get(payload, "run_id") == Int(command.runId) && Get(payload, "content_id") == Int(command.contentId)
    && Get(payload, "work").Arr?
  }

  /** An item of work that is done. */
  predicate DoneItem(item: Json) {
    && item.Obj? && Get(item, "state") == Str("terminal")
    && Get(item, "id").Int? && Get(item, "id").number >= 1
    && Get(item, "completed_at").Str? && Get(item, "completed_at") != Str("")
  }

  predicate AllDone(work: seq<Json>) {
    work != [] && forall item <- work :: DoneItem(item)
  }

  lemma TerminalItem(item: Json)
    ensures TerminalWork(item) ==> DoneItem(item)
    ensures DoneItem(item) ==> TerminalWork(item)
  {
  }

  /** What is unfinished, blocked with work outstanding, or of another command leaves the job running. */
  lemma PollLeavesRunning(tables: Tables, jobId: nat, payload: Option<Json>, now: Time)
    requires IsRunning(tables.jobs, jobId) && Pointer(tables.jobs[jobId - 1]).Some?
    ensures var command := Pointer(tables.jobs[jobId - 1]).value;
      (|| payload == None || !SpeaksOf(payload.value, command)
       || Get(payload.value, "status") !in {Str("succeeded"), Str("partial"), Str("failed"), Str("blocked")}
       || (Get(payload.value, "status") == Str("blocked") && Get(payload.value, "work") != Arr([]))
       || (Get(payload.value, "status") in {Str("succeeded"), Str("partial")}
           && !AllDone(Get(payload.value, "work").items))) ==>
        HandlePoll(tables, jobId, payload, now) == tables
  {
    if payload.Some? && payload.value.Obj? && Get(payload.value, "work").Arr? {
      forall item | item in Get(payload.value, "work").items ensures DoneItem(item) <==> TerminalWork(item) {
        TerminalItem(item);
      }
    }
  }

  /** And what ends it, with which result. */
  lemma PollEnds(tables: Tables, jobId: nat, payload: Json, now: Time)
    requires Consistent(tables) && IsRunning(tables.jobs, jobId) && Pointer(tables.jobs[jobId - 1]).Some?
    requires SpeaksOf(payload, Pointer(tables.jobs[jobId - 1]).value)
    ensures var after := HandlePoll(tables, jobId, Some(payload), now);
      var work := Get(payload, "work").items;
      && |after.jobs| == |tables.jobs|
      && var job := after.jobs[jobId - 1];
      && (Get(payload, "status") in {Str("succeeded"), Str("partial")} && AllDone(work) ==>
            job.status.Succeeded? && job.error == None && job.errorCode == None
            && ShownStatus(job) == Get(payload, "status"))
      && (Get(payload, "status") == Str("failed") ==>
            job.status.Failed? && job.errorCode == Some(CommandFailed) && ShownStatus(job) == Str("failed"))
      && (Get(payload, "status") == Str("blocked") && work == [] ==>
            job.status.Failed? && job.errorCode == Some(CommandBlocked) && ShownStatus(job) == Str("failed"))
  {
    var command := Pointer(tables.jobs[jobId - 1]).value;
    forall item | item in Get(payload, "work").items ensures DoneItem(item) <==> TerminalWork(item) {
      TerminalItem(item);
    }
    if CommandTerminal(payload, command).Some? {
      CommandTerminalIsSafe(payload, command);
      var terminal := CommandTerminal(payload, command).value;
      ColumnRoundTrip(Some(command), Some(terminal.result), tables.jobs[jobId - 1].contentId);
    }
  }

  /** The status in the result that the browser is shown; neither cost nor currency is claimed to be known. */
  function ShownStatus(job: Job): Json {
    var shown := PublicResult(job.column, job.contentId);
    if shown.Obj? && Get(shown, "provider_cost") == Null && Get(shown, "currency") == Str("unknown")
    then Get(shown, "status") else Null
  }

  /* ----- a browser's request ----- */

  /** The job has not ended, or nobody knows how it ended. */
  predicate Occupied(job: Job) {
    job.status == Queued || job.status == Running || job.errorCode == Some(ResultUncertain)
  }

  function OccupiedAt(jobs: seq<Job>): set<nat> {
    set i: nat | i < |jobs| && Occupied(jobs[i])
  }

  lemma {:induction false} OccupiedCount(jobs: seq<Job>)
    ensures CountActive(jobs) == |OccupiedAt(jobs)|
  {
    if jobs == [] {
      assert OccupiedAt(jobs) == {};
    } else {
      var n := |jobs| - 1;
      var before := OccupiedAt(jobs[..n]);
      OccupiedCount(jobs[..n]);
      forall i: nat | i < n ensures i in before <==> i in OccupiedAt(jobs) {
        assert jobs[..n][i] == jobs[i];
      }
      assert OccupiedAt(jobs) == if Occupied(jobs[n]) then before + {n} else before;
    }
  }

  /**
    A new request: absorbed by the one job that occupies its content; otherwise refused as busy exactly when fifty
    contents are occupied; otherwise a new job of today.
   */
  lemma SubmissionOutcome(tables: Tables, contentId: int, requestId: string, title: string, now: Time)
    requires Consistent(tables) && forall request <- tables.requests :: request.requestId != requestId
    ensures var (after, submission) := Enqueue(tables, contentId, requestId, title, now);
      && (forall i :: 0 <= i < |tables.jobs| && tables.jobs[i].contentId == contentId && Occupied(tables.jobs[i]) ==>
            submission == Submission.Accepted(i + 1) && after.jobs == tables.jobs)
      && ((forall i :: 0 <= i < |tables.jobs| && tables.jobs[i].contentId == contentId ==>
        !Occupied(tables.jobs[i])) ==>
            if |OccupiedAt(tables.jobs)| >= 50 then submission == Busy && after == tables
            else
              && submission == Submission.Accepted(|tables.jobs| + 1) && |after.jobs| == |tables.jobs| + 1
              && after.jobs[..|tables.jobs|] == tables.jobs
              && var job := after.jobs[|tables.jobs|];
              && job.contentId == contentId && job.status == Queued && job.submittedDay == BusinessDay(now)
              && job.createdAt == now && job.column == None && job.error == None && job.errorCode == None
              && job.title == if title == "" then DefaultFor(contentId) else Given(title))
  {
    OccupiedCount(tables.jobs);
    var repeated, active := FindRequest(tables.requests, requestId), FindActive(tables.jobs, contentId);
    assert repeated == None;
    forall i | 0 <= i < |tables.jobs| ensures tables.jobs[i] in tables.jobs
      && (Occupied(tables.jobs[i]) <==> Active(tables.jobs[i])) {
    }
    if active.Some? {
      var k :| 0 <= k < |tables.jobs| && tables.jobs[k] == active.value;
    }
  }

  /** What ending a running job makes of its row; it succeeds only with a result that says so, and without an error. */
  lemma FinishedRow(tables: Tables, jobId: nat, ending: Ending, now: Time)
    requires IsRunning(tables.jobs, jobId)
    ensures var after := Finish(tables, jobId, ending, now);
      && after.requests == tables.requests && |after.jobs| == |tables.jobs|
      && (forall i :: 0 <= i < |tables.jobs| && i != jobId - 1 ==> after.jobs[i] == tables.jobs[i])
      && var job := after.jobs[jobId - 1];
      && job.completedAt == Some(now) && job.error == ending.error && job.errorCode == ending.code
      && job.status == (
        if ending.error == None && ending.result.Some? && ending.result.value.Obj?
          && Get(ending.result.value, "status") in {Str("succeeded"), Str("partial")}
        then Succeeded else Failed)
  {
  }

  /** What claiming makes of each row: queued jobs of other days fail as expired, the claimed one runs. */
  lemma ClaimedRows(tables: Tables, now: Time, i: nat)
    requires Consistent(tables) && i < |tables.jobs|
    ensures var (after, claimed) := Claim(tables, now);
      && |after.jobs| == |tables.jobs| && after.requests == tables.requests
      && var before, job := tables.jobs[i], after.jobs[i];
      if before.status == Queued && before.submittedDay != BusinessDay(now) then
        && job.status == Failed && job.error == Some(Expired) && job.errorCode == Some(QueueExpired)
        && job.completedAt == Some(now) && job.contentId == before.contentId && job.column == before.column
      else if claimed == Some(i + 1) then
        && before.status == Queued && job.status == Running && job.contentId == before.contentId
        && job.error == None && job.errorCode == None && job.column == None && job.completedAt == before.completedAt
      else job == before
  {
    assert tables.jobs[i] in tables.jobs;
  }

  /** What an interruption makes of each row: a job that runs without a stored command is left in doubt. */
  lemma InterruptedRows(tables: Tables, now: Time, i: nat)
    requires i < |tables.jobs|
    ensures var after := MarkInterrupted(tables, now);
      && |after.jobs| == |tables.jobs| && after.requests == tables.requests
      && var before, job := tables.jobs[i], after.jobs[i];
      if before.status == Running && StoredCommand(before.column, before.contentId) == None then
        && job.status == Failed && job.error == Some(Uncertain) && job.errorCode == Some(ResultUncertain)
        && job.completedAt == Some(now) && job.contentId == before.contentId && job.column == before.column
      else job == before
  {
  }

  /** A day begins at midnight in Shanghai, eight hours ahead, and lasts 24 hours. */
  lemma ShanghaiDay(time: Time, day: int)
    ensures BusinessDay(time) == day <==>
      day * 24 * 60 * 60 * 1000 <= time + 8 * 60 * 60 * 1000 < (day + 1) * 24 * 60 * 60 * 1000
  {
  }
}
