/**
  The update queue over whole runs: requests arriving, the single worker claiming, posting, polling and being
  interrupted, the process crashing and opening the same tables again. Besides the tables, a state records what no
  table does: which POSTs left the process, how each of them ended, and which claims were made.
 */
module QueueRuns {
  import opened Wrappers
  import opened Json
  import opened WriterProtocol
  import opened UpdateQueue
  import L = QueueLedger

  /** What the Writer's answer to a POST can be; a body that is not JSON is None. */
  datatype PostReply = Lost | Http(status: int, body: Option<Json>)

  /** The tables, and what no table records: the worker, the POSTs that left, the fates of claimed jobs, the claims. */
  datatype System = System(
    tables: Tables, worker: L.Worker, posts: seq<L.Post>, fates: map<nat, L.Fate>, claims: seq<L.ClaimRecord>)

  const INITIAL: System := System(EMPTY, L.Off, [], map[], [])

  /* ----- the answer to a POST ----- */

  /** Rejections that the Writer issues before any work is dispatched. */
  const REJECTIONS: set<int> := {400, 401, 403, 404, 409, 422, 429}

  const UNCERTAIN_END: Ending := Ending(None, Some(Uncertain), Some(ResultUncertain))

  function ResultEnd(result: Json): Ending {
    if result.Obj? && IsText(Get(result, "status"), {"succeeded", "partial"}) then Ending(Some(result), None, None)
    else Ending(Some(result), Some(UpdateRejected), Some(UpdateFailed))
  }

  function RejectionEnd(status: int): Ending {
    Ending(None, Some(HttpRejected(status)), Some(WriterHttp(status)))
  }

  /** The transactions that record a POST's answer; None when the worker raises instead. */
  function HandleReply(tables: Tables, jobId: nat, reply: PostReply, now: Time): Option<Tables> {
    match reply
    case Lost => Some(Finish(tables, jobId, UNCERTAIN_END, now))
    case Http(status, body) =>
      if status == 202 then
        if body.Some? && Accept(tables, jobId, body.value, now).1 then Some(Accept(tables, jobId, body.value, now).0)
        else Some(Finish(tables, jobId, UNCERTAIN_END, now))
      else if status == 200 then
        if body.None? then Some(Finish(tables, jobId, UNCERTAIN_END, now))
        else
          match SafeResult(body.value)
          case Accepted(result) => Some(Finish(tables, jobId, ResultEnd(result), now))
          case OverflowFault => None
          case _ => Some(Finish(tables, jobId, UNCERTAIN_END, now))
      else if status in REJECTIONS then Some(Finish(tables, jobId, RejectionEnd(status), now))
      else Some(Finish(tables, jobId, UNCERTAIN_END, now))
  }

  /** What an answer proves, independently of how it is stored. */
  function Verdict(reply: PostReply, contentId: int): L.Fate {
    match reply
    case Lost => L.Ambiguous
    case Http(status, body) =>
      if status == 202 && body.Some? && Acknowledgement(body.value, contentId).Some? then L.Acked
      else if status == 200 && body.Some? && SafeResult(body.value).Accepted? then L.Definite
      else if status in REJECTIONS then L.Definite
      else L.Ambiguous
  }

  function TerminalEnd(terminal: Terminal): Ending {
    Ending(Some(terminal.result), if terminal.code.Some? then Some(CommandUnfinished) else None, terminal.code)
  }

  /** Follows up an acknowledged command; anything but a definite end leaves the job running. */
  function HandlePoll(tables: Tables, jobId: nat, payload: Option<Json>, now: Time): Tables
    requires IsRunning(tables.jobs, jobId) && Pointer(tables.jobs[jobId - 1]).Some?
  {
    var command := Pointer(tables.jobs[jobId - 1]).value;
    if payload.Some? && CommandTerminal(payload.value, command).Some? then
      Finish(tables, jobId, TerminalEnd(CommandTerminal(payload.value, command).value), now)
    else tables
  }

  /* ----- steps ----- */

  datatype Action =
    | Submits(contentId: int, requestId: string, title: string, now: Time)
    | Claims(now: Time)
    | Posts
    | Replies(reply: PostReply, now: Time)
    | Polls(jobId: nat, payload: Option<Json>, now: Time)
    | Interrupts(now: Time)
    | Halts
    | Crashes
    | Opens(now: Time)

  predicate Enabled(s: System, action: Action) {
    match action
    case Submits(_, _, _, _) => !s.worker.Off?
    case Claims(_) => s.worker.Idle?
    case Posts => s.worker.Sending? && 1 <= s.worker.jobId <= |s.tables.jobs|
    case Replies(reply, now) =>
      && s.worker.InFlight? && 1 <= s.worker.jobId <= |s.tables.jobs|
      && HandleReply(s.tables, s.worker.jobId, reply, now).Some?
    case Polls(jobId, _, _) =>
      s.worker.Idle? && IsRunning(s.tables.jobs, jobId) && Pointer(s.tables.jobs[jobId - 1]).Some?
    case Interrupts(_) => L.Alive(s.worker)
    case Halts => L.Alive(s.worker)
    case Crashes => !s.worker.Off?
    case Opens(_) => s.worker.Off?
  }

  function Apply(s: System, action: Action): System
    requires Enabled(s, action)
  {
    match action
    case Submits(contentId, requestId, title, now) =>
      s.(tables := Enqueue(s.tables, contentId, requestId, title, now).0)
    case Claims(now) =>
      var (tables, claimed) := Claim(s.tables, now);
      if claimed.None? then s.(tables := tables)
      else s.(tables := tables, worker := L.Sending(claimed.value),
              claims := s.claims + [L.ClaimRecord(claimed.value, BusinessDay(now))])
    case Posts =>
      var job := s.tables.jobs[s.worker.jobId - 1];
      s.(worker := L.InFlight(job.id), posts := s.posts + [L.Post(job.id, job.contentId)])
    case Replies(reply, now) =>
      var job := s.tables.jobs[s.worker.jobId - 1];
      s.(tables := HandleReply(s.tables, s.worker.jobId, reply, now).value, worker := L.Idle,
         fates := s.fates[s.worker.jobId := Verdict(reply, job.contentId)])
    case Polls(jobId, payload, now) =>
      s.(tables := HandlePoll(s.tables, jobId, payload, now))
    case Interrupts(now) =>
      s.(tables := MarkInterrupted(s.tables, now), worker := L.Idle, fates := L.Abandoned(s.worker, s.fates))
    case Halts => s.(worker := L.Halted, fates := L.Abandoned(s.worker, s.fates))
    case Crashes => s.(worker := L.Off, fates := L.Abandoned(s.worker, s.fates))
    case Opens(now) => s.(tables := MarkInterrupted(s.tables, now), worker := L.Idle)
  }

  ghost predicate Next(s: System, s': System) {
    exists action :: Enabled(s, action) && s' == Apply(s, action)
  }

  ghost predicate StepAt(run: seq<System>, i: int)
    requires 0 <= i < |run| - 1
  {
    Next(run[i], run[i + 1])
  }

  ghost predicate IsRun(run: seq<System>) {
    && run != [] && run[0] == INITIAL
    && forall i :: 0 <= i < |run| - 1 ==> StepAt(run, i)
  }

  /* ----- how one row may change ----- */

  /** Queued, running without a pointer, running with one, finished. */
  function Rank(job: Job): nat {
    match job.status
    case Queued => 3
    case Running => if Pointer(job).None? then 2 else 1
    case _ => 0
  }

  /** Identity never changes, a pointer never changes, a finished row never changes, and every change drops the rank. */
  predicate Evolves(before: Job, after: Job) {
    && after.id == before.id && after.contentId == before.contentId && after.title == before.title
    && after.createdAt == before.createdAt && after.submittedDay == before.submittedDay
    && (Pointer(before).Some? ==> Pointer(after) == Pointer(before))
    && (after == before || Rank(after) < Rank(before))
  }

  ghost predicate RowsEvolve(before: seq<Job>, after: seq<Job>) {
    && |before| <= |after|
    && forall i :: 0 <= i < |before| ==> Evolves(before[i], after[i])
  }

  lemma EvolvesTransitive(a: Job, b: Job, c: Job)
    requires Evolves(a, b) && Evolves(b, c)
    ensures Evolves(a, c)
  {
  }

  /* ----- the ledger of a system ----- */

  function KindOf(job: Job): L.Kind {
    match job.status
    case Queued => L.Queued
    case Running => if Pointer(job).None? then L.Unacked else L.Pointed
    case Succeeded => L.Over
    case Failed =>
      if job.errorCode == Some(ResultUncertain) then L.Doubtful
      else if job.errorCode == Some(QueueExpired) then L.Lapsed
      else L.Over
  }

  function EntryOf(job: Job): L.Entry {
    L.Entry(job.contentId, job.submittedDay, KindOf(job))
  }

  function Entries(jobs: seq<Job>): (entries: seq<L.Entry>)
    ensures |entries| == |jobs|
    ensures forall i :: 0 <= i < |jobs| ==> entries[i] == EntryOf(jobs[i])
  {
    seq(|jobs|, i requires 0 <= i < |jobs| => EntryOf(jobs[i]))
  }

  function LedgerOf(s: System): L.Ledger {
    L.Ledger(Entries(s.tables.jobs), s.worker, s.posts, s.fates, s.claims)
  }

  lemma ActiveOccupies(job: Job)
    requires WellFormedJob(job)
    ensures Active(job) <==> L.Occupies(KindOf(job))
  {
  }

  /** What every reachable state satisfies. */
  ghost predicate SystemInv(s: System) {
    Consistent(s.tables) && L.LedgerInv(LedgerOf(s))
  }

  /* ----- one row ----- */

  /** Ending an unacknowledged job. */
  lemma FinishRow(tables: Tables, jobId: nat, ending: Ending, now: Time)
    requires Consistent(tables) && ProperEnding(ending)
    requires IsRunning(tables.jobs, jobId)
    requires Succeeds(ending) || !ending.code.value.QueueExpired?
    ensures var after, job := Finish(tables, jobId, ending, now), tables.jobs[jobId - 1];
      && Consistent(after) && after.requests == tables.requests
      && after.jobs == tables.jobs[jobId - 1 := Finished(job, ending, now)]
      && Evolves(job, Finished(job, ending, now))
      && KindOf(Finished(job, ending, now)) == if ending.code == Some(ResultUncertain) then L.Doubtful else L.Over
  {
    var job := tables.jobs[jobId - 1];
    FinishConsistent(tables, jobId, ending, now);
    ColumnRoundTrip(Pointer(job), ending.result, job.contentId);
  }

  /** Storing a first pointer. */
  lemma AcceptRow(tables: Tables, jobId: nat, body: Json, now: Time)
    requires Consistent(tables)
    requires IsRunning(tables.jobs, jobId) && Unacknowledged(tables.jobs[jobId - 1])
    ensures var (after, accepted), job := Accept(tables, jobId, body, now), tables.jobs[jobId - 1];
      && (accepted <==> Acknowledgement(body, job.contentId).Some?)
      && (!accepted ==> after == tables)
      && (accepted ==>
            && Consistent(after) && after.requests == tables.requests
            && |after.jobs| == |tables.jobs| && after.jobs == tables.jobs[jobId - 1 := after.jobs[jobId - 1]]
            && Evolves(job, after.jobs[jobId - 1]) && KindOf(after.jobs[jobId - 1]) == L.Pointed)
  {
    AcceptConsistent(tables, jobId, body, now);
    var job := tables.jobs[jobId - 1];
    if Acknowledgement(body, job.contentId).Some? {
      PointerRoundTrip(Acknowledgement(body, job.contentId).value, job.contentId);
    }
  }

  /** One transaction changes one row: everything else stays, the row moves forward, to a kind of `kinds`. */
  ghost predicate RowStep(tables: Tables, after: Tables, jobId: nat, kinds: set<L.Kind>)
    requires 1 <= jobId <= |tables.jobs|
  {
    && Consistent(after) && after.requests == tables.requests
    && |after.jobs| == |tables.jobs| && after.jobs == tables.jobs[jobId - 1 := after.jobs[jobId - 1]]
    && Evolves(tables.jobs[jobId - 1], after.jobs[jobId - 1])
    && KindOf(after.jobs[jobId - 1]) in kinds
  }

  function KindsOfFate(fate: L.Fate): set<L.Kind> {
    match fate
    case Definite => {L.Over}
    case Acked => {L.Pointed}
    case Ambiguous => {L.Doubtful}
  }

  /** However the Writer answers, the job ends up exactly as the answer's verdict says. */
  lemma ReplyRow(tables: Tables, jobId: nat, reply: PostReply, now: Time)
    requires Consistent(tables)
    requires IsRunning(tables.jobs, jobId) && Unacknowledged(tables.jobs[jobId - 1])
    requires HandleReply(tables, jobId, reply, now).Some?
    ensures RowStep(tables, HandleReply(tables, jobId, reply, now).value, jobId,
                    KindsOfFate(Verdict(reply, tables.jobs[jobId - 1].contentId)))
  {
    FinishRow(tables, jobId, UNCERTAIN_END, now);
    match reply
    case Lost =>
    case Http(status, body) =>
      if status == 202 {
        if body.Some? {
          AcceptRow(tables, jobId, body.value, now);
        }
      } else if status == 200 {
        if body.Some? && SafeResult(body.value).Accepted? {
          var result := SafeResult(body.value).result;
          SafeResultShape(result);
          FinishRow(tables, jobId, ResultEnd(result), now);
        }
      } else if status in REJECTIONS {
        FinishRow(tables, jobId, RejectionEnd(status), now);
      }
  }

  lemma PollRow(tables: Tables, jobId: nat, payload: Option<Json>, now: Time)
    requires Consistent(tables)
    requires IsRunning(tables.jobs, jobId) && Pointer(tables.jobs[jobId - 1]).Some?
    ensures var after := HandlePoll(tables, jobId, payload, now);
      after == tables || RowStep(tables, after, jobId, {L.Over})
  {
    var command := Pointer(tables.jobs[jobId - 1]).value;
    if payload.Some? && CommandTerminal(payload.value, command).Some? {
      var terminal := CommandTerminal(payload.value, command).value;
      CommandTerminalIsSafe(payload.value, command);
      SafeResultShape(terminal.result);
      FinishRow(tables, jobId, TerminalEnd(terminal), now);
    }
  }

  /* ----- every step keeps the invariant and moves every row forward ----- */

  /** A step keeps the invariant, moves rows forward, and only appends requests. */
  ghost predicate GoodStep(s: System, s': System) {
    && SystemInv(s')
    && RowsEvolve(s.tables.jobs, s'.tables.jobs)
    && s.tables.requests <= s'.tables.requests
    && s.posts <= s'.posts && s.claims <= s'.claims
  }

  /** Replacing a row is replacing an entry. */
  lemma RowStepEntries(tables: Tables, after: Tables, jobId: nat, kinds: set<L.Kind>)
    requires 1 <= jobId <= |tables.jobs| && RowStep(tables, after, jobId, kinds)
    ensures Entries(after.jobs) ==
            Entries(tables.jobs)[jobId - 1 := Entries(tables.jobs)[jobId - 1].(kind := KindOf(after.jobs[jobId - 1]))]
    ensures RowsEvolve(tables.jobs, after.jobs)
  {
  }

  lemma SubmitsSimulated(s: System, action: Action)
    requires Consistent(s.tables) && action.Submits? && Enabled(s, action)
    ensures L.Submits(LedgerOf(s), LedgerOf(Apply(s, action)))
    ensures RowsEvolve(s.tables.jobs, Apply(s, action).tables.jobs)
    ensures s.tables.requests <= Apply(s, action).tables.requests
  {
    var s' := Apply(s, action);
    var l, l' := LedgerOf(s), LedgerOf(s');
    if s'.tables.jobs != s.tables.jobs {
      var job := s'.tables.jobs[|s.tables.jobs|];
      assert s'.tables.jobs == s.tables.jobs + [job];
      forall id | L.Has(l, id) && L.At(l, id).contentId == action.contentId
        ensures !L.Occupies(L.At(l, id).kind)
      {
        assert s.tables.jobs[id - 1] in s.tables.jobs;
        ActiveOccupies(s.tables.jobs[id - 1]);
      }
      assert l' == l.(entries := l.entries + [EntryOf(job)]);
    } else {
      assert l' == l;
    }
  }

  lemma SubmitsStep(s: System, action: Action)
    requires SystemInv(s) && action.Submits? && Enabled(s, action)
    ensures GoodStep(s, Apply(s, action))
  {
    EnqueueConsistent(s.tables, action.contentId, action.requestId, action.title, action.now);
    SubmitsSimulated(s, action);
    L.SubmitsKeeps(LedgerOf(s), LedgerOf(Apply(s, action)));
  }

  /** One row under a claim. */
  ghost predicate ClaimedRow(before: Job, after: Job, claimed: Option<nat>, now: Time) {
    && Evolves(before, after)
    && (if claimed == Some(before.id) then
          && KindOf(before) == L.Queued && before.submittedDay == BusinessDay(now)
          && EntryOf(after) == EntryOf(before).(kind := L.Unacked)
        else L.Lapses(EntryOf(before), EntryOf(after), BusinessDay(now)))
    && (KindOf(after) == L.Queued ==> claimed.Some? && claimed.value < before.id)
  }

  lemma ClaimRow(tables: Tables, now: Time, i: nat)
    requires Consistent(tables) && i < |tables.jobs|
    ensures var (after, claimed) := Claim(tables, now);
      |after.jobs| == |tables.jobs| && ClaimedRow(tables.jobs[i], after.jobs[i], claimed, now)
  {
    var expired := ExpireAll(tables.jobs, now);
    var row := FirstQueued(expired);
    assert expired[i] == Expire(tables.jobs[i], now);
    assert WellFormedJob(tables.jobs[i]);
    assert row.Some? ==> expired[row.value].id == row.value + 1;
  }

  lemma RowsMakeClaim(s: System, s': System, now: Time, claimed: Option<nat>)
    requires s.worker.Idle? && |s'.tables.jobs| == |s.tables.jobs|
    requires forall i :: 0 <= i < |s.tables.jobs| ==>
      s.tables.jobs[i].id == i + 1 && ClaimedRow(s.tables.jobs[i], s'.tables.jobs[i], claimed, now)
    requires claimed.Some? ==> 1 <= claimed.value <= |s.tables.jobs|
    requires s'.posts == s.posts && s'.fates == s.fates
    requires s'.worker == (if claimed.Some? then L.Sending(claimed.value) else L.Idle)
    requires s'.claims == s.claims + (if claimed.Some? then [L.ClaimRecord(claimed.value, BusinessDay(now))] else [])
    ensures L.Claims(LedgerOf(s), LedgerOf(s'), BusinessDay(now), claimed)
  {
    var l, l' := LedgerOf(s), LedgerOf(s');
    forall id | L.Has(l, id)
      ensures L.At(l, id) == EntryOf(s.tables.jobs[id - 1]) && L.At(l', id) == EntryOf(s'.tables.jobs[id - 1])
      ensures s.tables.jobs[id - 1].id == id && ClaimedRow(s.tables.jobs[id - 1], s'.tables.jobs[id - 1], claimed, now)
    {
    }
  }

  lemma ClaimsSimulated(s: System, action: Action)
    requires Consistent(s.tables) && action.Claims? && Enabled(s, action)
    ensures var s' := Apply(s, action);
      && L.Claims(LedgerOf(s), LedgerOf(s'), BusinessDay(action.now), Claim(s.tables, action.now).1)
      && RowsEvolve(s.tables.jobs, s'.tables.jobs)
  {
    var s' := Apply(s, action);
    var claimed := Claim(s.tables, action.now).1;
    forall i | 0 <= i < |s.tables.jobs|
      ensures |s'.tables.jobs| == |s.tables.jobs|
        && ClaimedRow(s.tables.jobs[i], s'.tables.jobs[i], claimed, action.now)
    {
      ClaimRow(s.tables, action.now, i);
    }
    RowsMakeClaim(s, s', action.now, claimed);
  }

  lemma ClaimsStep(s: System, action: Action)
    requires SystemInv(s) && action.Claims? && Enabled(s, action)
    ensures GoodStep(s, Apply(s, action))
  {
    ClaimConsistent(s.tables, action.now);
    ClaimsSimulated(s, action);
    L.ClaimsKeeps(LedgerOf(s), LedgerOf(Apply(s, action)), BusinessDay(action.now), Claim(s.tables, action.now).1);
  }

  lemma PostsStep(s: System, action: Action)
    requires SystemInv(s) && action.Posts? && Enabled(s, action)
    ensures GoodStep(s, Apply(s, action))
  {
    var s' := Apply(s, action);
    assert L.Posts(LedgerOf(s), LedgerOf(s'));
    L.PostsKeeps(LedgerOf(s), LedgerOf(s'));
  }

  lemma RepliesSimulated(s: System, action: Action)
    requires Consistent(s.tables) && action.Replies? && Enabled(s, action)
    requires 1 <= s.worker.jobId <= |s.tables.jobs| && KindOf(s.tables.jobs[s.worker.jobId - 1]).Unacked?
    ensures var s' := Apply(s, action);
      && Consistent(s'.tables) && s'.tables.requests == s.tables.requests && RowsEvolve(s.tables.jobs, s'.tables.jobs)
      && L.Replies(LedgerOf(s), LedgerOf(s'), Verdict(action.reply, s.tables.jobs[s.worker.jobId - 1].contentId))
      && s'.posts == s.posts && s'.claims == s.claims
  {
    var s' := Apply(s, action);
    var id, l := s.worker.jobId, LedgerOf(s);
    var fate := Verdict(action.reply, s.tables.jobs[id - 1].contentId);
    ReplyRow(s.tables, id, action.reply, action.now);
    RowStepEntries(s.tables, s'.tables, id, KindsOfFate(fate));
    var kind := KindOf(s'.tables.jobs[id - 1]);
    assert LedgerOf(s') == L.WithKind(l, id, kind).(worker := L.Idle, fates := l.fates[id := fate]);
  }

  lemma RepliesStep(s: System, action: Action)
    requires SystemInv(s) && action.Replies? && Enabled(s, action)
    ensures GoodStep(s, Apply(s, action))
  {
    assert L.At(LedgerOf(s), s.worker.jobId).kind.Unacked?;
    RepliesSimulated(s, action);
    L.RepliesKeeps(LedgerOf(s), LedgerOf(Apply(s, action)),
      Verdict(action.reply, s.tables.jobs[s.worker.jobId - 1].contentId));
  }

  lemma PollsSimulated(s: System, action: Action)
    requires Consistent(s.tables) && action.Polls? && Enabled(s, action)
    ensures var s' := Apply(s, action);
      && Consistent(s'.tables) && L.Polls(LedgerOf(s), LedgerOf(s'), action.jobId)
      && RowsEvolve(s.tables.jobs, s'.tables.jobs) && s'.tables.requests == s.tables.requests
  {
    var s' := Apply(s, action);
    var id, l := action.jobId, LedgerOf(s);
    PollRow(s.tables, id, action.payload, action.now);
    if s'.tables != s.tables {
      RowStepEntries(s.tables, s'.tables, id, {L.Over});
      assert LedgerOf(s') == L.WithKind(l, id, L.Over);
    }
  }

  lemma PollsStep(s: System, action: Action)
    requires SystemInv(s) && action.Polls? && Enabled(s, action)
    ensures GoodStep(s, Apply(s, action))
  {
    PollsSimulated(s, action);
    L.PollsKeeps(LedgerOf(s), LedgerOf(Apply(s, action)), action.jobId);
  }

  lemma InterruptSimulated(s: System, action: Action)
    requires Consistent(s.tables) && (action.Interrupts? || action.Opens?) && Enabled(s, action)
    ensures var s' := Apply(s, action);
      && L.Interrupts(LedgerOf(s), LedgerOf(s')) && RowsEvolve(s.tables.jobs, s'.tables.jobs)
      && forall job <- s'.tables.jobs :: !Unacknowledged(job)
  {
    var s' := Apply(s, action);
    forall i | 0 <= i < |s.tables.jobs|
      ensures s'.tables.jobs[i] == Interrupted(s.tables.jobs[i], action.now)
      ensures Evolves(s.tables.jobs[i], s'.tables.jobs[i])
      ensures KindOf(s'.tables.jobs[i]) ==
        if KindOf(s.tables.jobs[i]).Unacked? then L.Doubtful else KindOf(s.tables.jobs[i])
      ensures !Unacknowledged(s'.tables.jobs[i])
    {
    }
  }

  /** Marking interrupted jobs leaves no job unacknowledged, and touches no other job. */
  lemma InterruptStep(s: System, action: Action)
    requires SystemInv(s) && (action.Interrupts? || action.Opens?) && Enabled(s, action)
    ensures GoodStep(s, Apply(s, action))
    ensures forall job <- Apply(s, action).tables.jobs :: !Unacknowledged(job)
  {
    MarkInterruptedConsistent(s.tables, action.now);
    InterruptSimulated(s, action);
    L.InterruptsKeeps(LedgerOf(s), LedgerOf(Apply(s, action)));
  }

  lemma StopsStep(s: System, action: Action)
    requires SystemInv(s) && (action.Halts? || action.Crashes?) && Enabled(s, action)
    ensures GoodStep(s, Apply(s, action))
  {
    var s' := Apply(s, action);
    assert L.Stops(LedgerOf(s), LedgerOf(s'));
    L.StopsKeeps(LedgerOf(s), LedgerOf(s'));
  }

  lemma EveryStepIsGood(s: System, action: Action)
    requires SystemInv(s) && Enabled(s, action)
    ensures GoodStep(s, Apply(s, action))
  {
    match action
    case Submits(_, _, _, _) => SubmitsStep(s, action);
    case Claims(_) => ClaimsStep(s, action);
    case Posts => PostsStep(s, action);
    case Replies(_, _) => RepliesStep(s, action);
    case Polls(_, _, _) => PollsStep(s, action);
    case Interrupts(_) => InterruptStep(s, action);
    case Halts => StopsStep(s, action);
    case Crashes => StopsStep(s, action);
    case Opens(_) => InterruptStep(s, action);
  }
}
