/**
  What holds over every run of the update queue, whatever requests, answers, errors and crashes it is made of.
 */
module QueueTheorems {
  import opened Wrappers
  import opened WriterProtocol
  import opened UpdateQueue
  import opened QueueRuns
  import L = QueueLedger

  lemma InitialInv()
    ensures SystemInv(INITIAL)
  {
  }

  lemma StepOfRun(run: seq<System>, i: nat) returns (action: Action)
    requires IsRun(run) && i < |run| - 1
    ensures Enabled(run[i], action) && run[i + 1] == Apply(run[i], action)
  {
    assert StepAt(run, i);
    action :| Enabled(run[i], action) && run[i + 1] == Apply(run[i], action);
  }

  lemma NextIsGood(s: System, s': System)
    requires SystemInv(s) && Next(s, s')
    ensures GoodStep(s, s')
  {
    var action :| Enabled(s, action) && s' == Apply(s, action);
    EveryStepIsGood(s, action);
  }

  /** Every state of a run satisfies the invariant, and every step of it is a good one. */
  lemma {:induction false} RunInv(run: seq<System>, i: nat)
    requires IsRun(run) && i < |run|
    ensures SystemInv(run[i])
    ensures i > 0 ==> GoodStep(run[i - 1], run[i])
  {
    if i == 0 {
      InitialInv();
    } else {
      RunInv(run, i - 1);
      var s, s' := run[i - 1], run[i];
      assert Next(s, s') by { assert StepAt(run, i - 1); }
      NextIsGood(s, s');
    }
  }

  /** Between any two states of a run, rows only move forward, and requests, POSTs and claims are only appended. */
  lemma {:induction false} RunMovesForward(run: seq<System>, i: nat, j: nat)
    requires IsRun(run) && i <= j < |run|
    ensures RowsEvolve(run[i].tables.jobs, run[j].tables.jobs)
    ensures run[i].tables.requests <= run[j].tables.requests
    ensures run[i].posts <= run[j].posts && run[i].claims <= run[j].claims
    decreases j - i
  {
    if i < j {
      RunMovesForward(run, i, j - 1);
      RunInv(run, j);
      var a, b, c := run[i].tables.jobs, run[j - 1].tables.jobs, run[j].tables.jobs;
      forall k | 0 <= k < |a|
        ensures Evolves(a[k], c[k])
      {
        EvolvesTransitive(a[k], b[k], c[k]);
      }
    }
  }

  /* ----- POSTs ----- */

  /** Each job is POSTed at most once: the POSTs of a run go to strictly increasing job ids. */
  lemma EachJobPostedAtMostOnce(run: seq<System>, i: nat)
    requires IsRun(run) && i < |run|
    ensures var posts := run[i].posts; forall j, k :: 0 <= j < k < |posts| ==> posts[j].jobId < posts[k].jobId
  {
    RunInv(run, i);
  }

  /** A fate once known is never revised. */
  lemma FatesPersist(s: System, action: Action, id: nat)
    requires SystemInv(s) && Enabled(s, action) && id in s.fates
    ensures id in Apply(s, action).fates && Apply(s, action).fates[id] == s.fates[id]
  {
    assert L.FatesInv(LedgerOf(s));
  }

  /** At most one POST was appended, and not for the content. */
  predicate NotPosted(before: seq<L.Post>, after: seq<L.Post>, contentId: int) {
    || after == before
    || (|after| == |before| + 1 && before <= after && after[|before|].contentId != contentId)
  }

  /** A job of unknown outcome bars its content from the worker. */
  lemma DoubtBarsWorker(s: System, id: nat)
    requires SystemInv(s) && id in s.fates && s.fates[id].Ambiguous?
    ensures 1 <= id <= |s.tables.jobs|
    ensures s.worker.Sending? ==>
      1 <= s.worker.jobId <= |s.tables.jobs|
        && s.tables.jobs[s.worker.jobId - 1].contentId != s.tables.jobs[id - 1].contentId
  {
    L.DoubtBars(LedgerOf(s), id);
    assert L.Has(LedgerOf(s), id);
  }

  /** What a step appends to the POSTs. */
  lemma PostsOfStep(s: System, action: Action)
    requires Enabled(s, action)
    ensures if action.Posts? then
              1 <= s.worker.jobId <= |s.tables.jobs|
              && Apply(s, action).posts
                == s.posts + [L.Post(s.tables.jobs[s.worker.jobId - 1].id, s.tables.jobs[s.worker.jobId - 1].contentId)]
            else Apply(s, action).posts == s.posts
  {
  }

  /** The next POST, if one leaves now, is for another content than a job of unknown outcome. */
  lemma DoubtBarsNextPost(s: System, action: Action, id: nat)
    requires SystemInv(s) && Enabled(s, action)
    requires id in s.fates && s.fates[id].Ambiguous?
    ensures 1 <= id <= |s.tables.jobs|
    ensures NotPosted(s.posts, Apply(s, action).posts, s.tables.jobs[id - 1].contentId)
  {
    DoubtBarsWorker(s, id);
    PostsOfStep(s, action);
    assert action.Posts? ==> s.worker.Sending?;
  }

  /** No POST from position `from` on is for the content. */
  ghost predicate NonePosted(posts: seq<L.Post>, from: nat, contentId: int) {
    from <= |posts| && forall k :: from <= k < |posts| ==> posts[k].contentId != contentId
  }

  /**
    A lost, ambiguous or interrupted POST is never replayed: once the outcome of a job is in doubt, no later POST of
    the run, before or after any number of crashes, is for its content.
   */
  lemma {:induction false} AmbiguousPostIsNeverReplayed(run: seq<System>, i: nat, j: nat, id: nat)
    requires IsRun(run) && i <= j < |run|
    requires id in run[i].fates && run[i].fates[id].Ambiguous?
    ensures 1 <= id <= |run[i].tables.jobs|
    ensures id in run[j].fates && run[j].fates[id].Ambiguous?
    ensures NonePosted(run[j].posts, |run[i].posts|, run[i].tables.jobs[id - 1].contentId)
    decreases j - i
  {
    DoubtfulJobExists(run, i, id);
    if i < j {
      AmbiguousPostIsNeverReplayed(run, i, j - 1, id);
      NextStepKeepsDoubt(run, j - 1, id);
      SameContent(run, i, j - 1, id);
    }
  }

  lemma NextStepKeepsDoubt(run: seq<System>, i: nat, id: nat)
    requires IsRun(run) && i < |run| - 1
    requires id in run[i].fates && run[i].fates[id].Ambiguous?
    ensures 1 <= id <= |run[i].tables.jobs|
    ensures id in run[i + 1].fates && run[i + 1].fates[id].Ambiguous?
    ensures NotPosted(run[i].posts, run[i + 1].posts, run[i].tables.jobs[id - 1].contentId)
  {
    var action := StepOfRun(run, i);
    RunInv(run, i);
    FatesPersist(run[i], action, id);
    DoubtBarsNextPost(run[i], action, id);
  }

  lemma DoubtfulJobExists(run: seq<System>, i: nat, id: nat)
    requires IsRun(run) && i < |run| && id in run[i].fates
    ensures 1 <= id <= |run[i].tables.jobs|
  {
    RunInv(run, i);
    assert L.Has(LedgerOf(run[i]), id);
  }

  lemma SameContent(run: seq<System>, i: nat, j: nat, id: nat)
    requires IsRun(run) && i <= j < |run| && 1 <= id <= |run[i].tables.jobs|
    ensures id <= |run[j].tables.jobs| && run[j].tables.jobs[id - 1].contentId == run[i].tables.jobs[id - 1].contentId
  {
    RunMovesForward(run, i, j);
  }

  /** Finished, with an outcome the Writer vouched for. */
  ghost predicate OverForGood(s: System, id: nat) {
    && 1 <= id <= |s.tables.jobs| && KindOf(s.tables.jobs[id - 1]) == L.Over
    && id in s.fates && !s.fates[id].Ambiguous?
  }

  /** A POST that leaves for a content posted before. */
  lemma RepostStep(s: System, action: Action, k: nat)
    requires SystemInv(s) && Enabled(s, action) && k < |s.posts| < |Apply(s, action).posts|
    requires s.posts[k].contentId == Apply(s, action).posts[|s.posts|].contentId
    ensures OverForGood(s, s.posts[k].jobId)
    ensures var s' := Apply(s, action);
      && |s'.posts| == |s.posts| + 1 && s.posts[k].jobId < s'.posts[|s.posts|].jobId
  {
    PostedContent(s, action);
    PostsSimulated(s, action);
    WorkersContent(s);
    L.RepostOnlyAfterDefinite(LedgerOf(s), LedgerOf(Apply(s, action)), k);
    OverInLedger(s, s.posts[k].jobId);
  }

  lemma WorkersContent(s: System)
    requires L.Busy(s.worker) && 1 <= s.worker.jobId <= |s.tables.jobs|
    ensures L.Has(LedgerOf(s), s.worker.jobId)
    ensures L.At(LedgerOf(s), s.worker.jobId).contentId == s.tables.jobs[s.worker.jobId - 1].contentId
  {
  }

  lemma OverInLedger(s: System, id: nat)
    requires L.Has(LedgerOf(s), id) && L.At(LedgerOf(s), id).kind.Over? && id in s.fates && !s.fates[id].Ambiguous?
    ensures OverForGood(s, id)
  {
  }

  lemma PostsSimulated(s: System, action: Action)
    requires SystemInv(s) && Enabled(s, action) && action.Posts?
    ensures L.LedgerInv(LedgerOf(s)) && L.Posts(LedgerOf(s), LedgerOf(Apply(s, action)))
  {
  }

  lemma PostedContent(s: System, action: Action)
    requires Enabled(s, action) && |Apply(s, action).posts| > |s.posts|
    ensures action.Posts?
    ensures Apply(s, action).posts[|s.posts|].contentId == s.tables.jobs[s.worker.jobId - 1].contentId
  {
  }

  /** When a content is POSTed again, every earlier job of it is finished, with an outcome the Writer vouched for. */
  lemma RepostOnlyAfterDefiniteOutcome(run: seq<System>, i: nat, k: nat)
    requires IsRun(run) && i < |run| - 1
    requires |run[i + 1].posts| > |run[i].posts| && k < |run[i].posts|
    requires run[i].posts[k].contentId == run[i + 1].posts[|run[i].posts|].contentId
    ensures OverForGood(run[i], run[i].posts[k].jobId)
    ensures run[i].posts[k].jobId < run[i + 1].posts[|run[i].posts|].jobId
  {
    var action := StepOfRun(run, i);
    RunInv(run, i);
    RepostStep(run[i], action, k);
  }

  /** A POST whose answer was lost or ambiguous leaves its job in doubt, by the verdict on the answer alone. */
  lemma AmbiguousAnswerLeavesDoubt(s: System, reply: PostReply, now: Time)
    requires SystemInv(s) && Enabled(s, Replies(reply, now))
    ensures var id, s' := s.worker.jobId, Apply(s, Replies(reply, now));
      && id in s'.fates && s'.fates[id] == Verdict(reply, s.tables.jobs[id - 1].contentId)
      && (s'.fates[id].Ambiguous? <==> s'.tables.jobs[id - 1].errorCode == Some(ResultUncertain))
      && (s'.fates[id].Acked? ==> IsRunning(s'.tables.jobs, id) && Pointer(s'.tables.jobs[id - 1]).Some?)
      && (s'.fates[id].Definite? ==> KindOf(s'.tables.jobs[id - 1]) == L.Over)
  {
    WorkersKind(s);
    ReplyRow(s.tables, s.worker.jobId, reply, now);
  }

  lemma WorkersKind(s: System)
    requires SystemInv(s) && L.Busy(s.worker) && 1 <= s.worker.jobId <= |s.tables.jobs|
    ensures KindOf(s.tables.jobs[s.worker.jobId - 1]) == L.Unacked
  {
    assert L.FatesInv(LedgerOf(s));
  }

  /* ----- claims, rows, pointers ----- */

  /** Claimed ids strictly increase over the whole run, and every job is claimed on the day it was submitted. */
  lemma ClaimsIncreaseWithinTheirDay(run: seq<System>, i: nat)
    requires IsRun(run) && i < |run|
    ensures var claims, jobs := run[i].claims, run[i].tables.jobs;
      && (forall j, k :: 0 <= j < k < |claims| ==> claims[j].jobId < claims[k].jobId)
      && (forall k :: 0 <= k < |claims| ==>
            1 <= claims[k].jobId <= |jobs| && jobs[claims[k].jobId - 1].submittedDay == claims[k].day)
  {
    RunInv(run, i);
    var l := LedgerOf(run[i]);
    forall k | 0 <= k < |l.claims|
      ensures L.Has(l, l.claims[k].jobId) && L.At(l, l.claims[k].jobId).day == l.claims[k].day
    {
    }
  }

  /** A finished row is frozen, and a pointer, which always names its job's content, is kept for good. */
  lemma RowsArePermanent(run: seq<System>, i: nat, j: nat, id: nat)
    requires IsRun(run) && i <= j < |run| && 1 <= id <= |run[i].tables.jobs|
    ensures id <= |run[j].tables.jobs|
    ensures var before, after := run[i].tables.jobs[id - 1], run[j].tables.jobs[id - 1];
      && after.id == id && after.contentId == before.contentId
      && (before.status.Succeeded? || before.status.Failed? ==> after == before)
      && (Pointer(before).Some? ==>
            Pointer(after) == Pointer(before) && Pointer(after).value.contentId == before.contentId)
  {
    RunInv(run, i);
    RunMovesForward(run, i, j);
    assert run[i].tables.jobs[id - 1].id == id;
  }

  /** The rows that a step changed. */
  function ChangedRows(before: seq<Job>, after: seq<Job>): nat
    requires |before| <= |after|
  {
    if before == [] then 0
    else
      var last := |before| - 1;
      ChangedRows(before[..last], after[..last]) + (if before[last] != after[last] then 1 else 0)
  }

  function TotalRank(jobs: seq<Job>): nat {
    if jobs == [] then 0 else TotalRank(jobs[..|jobs| - 1]) + Rank(jobs[|jobs| - 1])
  }

  /** All row changes of a run. */
  ghost function Changes(run: seq<System>): nat
    requires forall i :: 0 <= i < |run| - 1 ==> |run[i].tables.jobs| <= |run[i + 1].tables.jobs|
  {
    if |run| <= 1 then 0
    else
      var last := |run| - 1;
      Changes(run[..last]) + ChangedRows(run[last - 1].tables.jobs, run[last].tables.jobs)
  }

  lemma {:induction false} ChangesDropRank(before: seq<Job>, after: seq<Job>)
    requires RowsEvolve(before, after)
    ensures ChangedRows(before, after) + TotalRank(after) <= TotalRank(before) + 3 * (|after| - |before|)
    decreases |after|
  {
    if |after| > |before| {
      assert after[..|after| - 1][..|before|] == after[..|before|];
      ChangesDropRank(before, after[..|after| - 1]);
      SameChanges(before, after, after[..|after| - 1]);
    } else if before != [] {
      var last := |before| - 1;
      ChangesDropRank(before[..last], after[..last]);
    }
  }

  lemma {:induction false} SameChanges(before: seq<Job>, left: seq<Job>, right: seq<Job>)
    requires |before| <= |left| && |before| <= |right|
    requires left[..|before|] == right[..|before|]
    ensures ChangedRows(before, left) == ChangedRows(before, right)
  {
    if before != [] {
      var last := |before| - 1;
      assert left[..last][..last] == left[..|before|][..last];
      assert right[..last][..last] == right[..|before|][..last];
      assert left[last] == left[..|before|][last] && right[last] == right[..|before|][last];
      SameChanges(before[..last], left[..last], right[..last]);
    }
  }

  /** A run changes rows at most three times per job ever submitted. */
  lemma {:induction false} AtMostThreeChangesPerJob(run: seq<System>)
    requires IsRun(run)
    ensures forall i :: 0 <= i < |run| - 1 ==> |run[i].tables.jobs| <= |run[i + 1].tables.jobs|
    ensures Changes(run) + TotalRank(run[|run| - 1].tables.jobs) <= 3 * |run[|run| - 1].tables.jobs|
  {
    forall i | 0 <= i < |run| - 1
      ensures |run[i].tables.jobs| <= |run[i + 1].tables.jobs|
    {
      RunMovesForward(run, i, i + 1);
    }
    if |run| > 1 {
      var last := |run| - 1;
      var shorter := run[..last];
      forall i | 0 <= i < |shorter| - 1
        ensures StepAt(shorter, i)
      {
        assert StepAt(run, i);
      }
      AtMostThreeChangesPerJob(shorter);
      RunInv(run, last);
      ChangesDropRank(run[last - 1].tables.jobs, run[last].tables.jobs);
    }
  }

  /* ----- requests and interrupted jobs ----- */

  /** A recorded request names one job for ever: asking again returns it or is refused, without a write. */
  lemma RequestNamesOneJobForever(run: seq<System>, i: nat, j: nat, request: Request, contentId: int, title: string,
                                  now: Time)
    requires IsRun(run) && i <= j < |run|
    requires request in run[i].tables.requests
    ensures request in run[j].tables.requests && 1 <= request.jobId <= |run[j].tables.jobs|
    ensures Enqueue(run[j].tables, contentId, request.requestId, title, now)
            == (run[j].tables,
                if run[j].tables.jobs[request.jobId - 1].contentId == contentId then Submission.Accepted(request.jobId)
                else Conflict)
  {
    RunMovesForward(run, i, j);
    RunInv(run, j);
    var k :| 0 <= k < |run[i].tables.requests| && run[i].tables.requests[k] == request;
    assert run[j].tables.requests[k] == request;
    RequestIdempotent(run[j].tables, contentId, request.requestId, title, now, request);
  }

  /** At most one claimed job lacks a pointer at any time, and none does while the worker is between jobs. */
  lemma AtMostOneUnacknowledged(run: seq<System>, i: nat)
    requires IsRun(run) && i < |run|
    ensures var jobs := run[i].tables.jobs;
      && (forall j, k :: 0 <= j < |jobs| && 0 <= k < |jobs| && Unacknowledged(jobs[j]) && Unacknowledged(jobs[k]) ==>
        j == k)
      && (run[i].worker.Idle? ==> forall j :: 0 <= j < |jobs| ==> !Unacknowledged(jobs[j]))
  {
    RunInv(run, i);
    var l, jobs := LedgerOf(run[i]), run[i].tables.jobs;
    assert L.FatesInv(l);
    forall j | 0 <= j < |jobs| && Unacknowledged(jobs[j])
      ensures L.Has(l, j + 1) && L.At(l, j + 1).kind.Unacked? && !run[i].worker.Idle?
    {
    }
  }
}
