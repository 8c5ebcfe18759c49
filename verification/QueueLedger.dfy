/**
  The skeleton of the update queue: of every job only its content, its day and how far it got, and beside the jobs
  the worker, the POSTs it sent, the claims it made, and the fate of each claimed job. The safety argument for
  never replaying an ambiguous POST is made here; `QueueRuns` shows that the queue's real steps are steps of it.
 */
module QueueLedger {
  import opened Wrappers

  /** How far a job got: unsent, claimed without acknowledgement, acknowledged, of unknown outcome, over, never sent. */
  datatype Kind = Queued | Unacked | Pointed | Doubtful | Over | Lapsed

  datatype Entry = Entry(contentId: int, day: int, kind: Kind)

  /** The worker: no process, a process whose worker task ended, between jobs, or busy with one. */
  datatype Worker = Off | Halted | Idle | Sending(jobId: nat) | InFlight(jobId: nat)

  /** What the outside world told the worker about a claimed job. */
  datatype Fate = Definite | Acked | Ambiguous

  datatype Post = Post(jobId: nat, contentId: int)

  datatype ClaimRecord = ClaimRecord(jobId: nat, day: int)

  /** The entry of job id is entries[id - 1]. */
  datatype Ledger = Ledger(
      entries: seq<Entry>, worker: Worker, posts: seq<Post>, fates: map<nat, Fate>, claims: seq<ClaimRecord>)

  predicate Occupies(kind: Kind) {
    kind.Queued? || kind.Unacked? || kind.Pointed? || kind.Doubtful?
  }

  predicate Busy(worker: Worker) {
    worker.Sending? || worker.InFlight?
  }

  predicate Alive(worker: Worker) {
    worker.Idle? || Busy(worker)
  }

  predicate Has(l: Ledger, id: nat) {
    1 <= id <= |l.entries|
  }

  function At(l: Ledger, id: nat): Entry
    requires Has(l, id)
  {
    l.entries[id - 1]
  }

  function LastClaim(l: Ledger): nat {
    if l.claims == [] then 0 else l.claims[|l.claims| - 1].jobId
  }

  /* ----- steps ----- */

  function WithKind(l: Ledger, id: nat, kind: Kind): Ledger
    requires Has(l, id)
  {
    l.(entries := l.entries[id - 1 := At(l, id).(kind := kind)])
  }

  /** A request arrives: nothing changes, or a job is queued for a content that no job occupies. */
  ghost predicate Submits(l: Ledger, l': Ledger) {
    && !l.worker.Off?
    && (|| l' == l
        || exists entry: Entry {:trigger l.(entries := l.entries + [entry])} ::
             && entry.kind.Queued? && l' == l.(entries := l.entries + [entry])
             && forall id :: Has(l, id) && At(l, id).contentId == entry.contentId ==> !Occupies(At(l, id).kind))
  }

  predicate Lapses(before: Entry, after: Entry, today: int) {
    after == if before.kind.Queued? && before.day != today then before.(kind := Lapsed) else before
  }

  /** Queued jobs of other days lapse; then the first remaining one, if any, is claimed. */
  ghost predicate Claims(l: Ledger, l': Ledger, today: int, claimed: Option<nat>) {
    && l.worker.Idle? && |l'.entries| == |l.entries|
    && l'.posts == l.posts && l'.fates == l.fates
    && (forall id: nat :: Has(l, id) && claimed != Some(id) ==> Lapses(At(l, id), At(l', id), today))
    && (claimed.None? ==>
          && l'.worker.Idle? && l'.claims == l.claims
          && forall id :: Has(l', id) ==> !At(l', id).kind.Queued?)
    && (claimed.Some? ==>
          && Has(l, claimed.value) && At(l, claimed.value).kind.Queued? && At(l, claimed.value).day == today
          && At(l', claimed.value) == At(l, claimed.value).(kind := Unacked)
          && l'.worker == Sending(claimed.value)
          && l'.claims == l.claims + [ClaimRecord(claimed.value, today)]
          && forall id :: Has(l', id) && At(l', id).kind.Queued? ==> claimed.value < id)
  }

  ghost predicate Posts(l: Ledger, l': Ledger) {
    && l.worker.Sending? && Has(l, l.worker.jobId)
    && l' == l.(worker := InFlight(l.worker.jobId),
                posts := l.posts + [Post(l.worker.jobId, At(l, l.worker.jobId).contentId)])
  }

  /** The kind of a job whose fate is known. */
  predicate Matches(fate: Fate, kind: Kind) {
    match fate
    case Definite => kind.Over?
    case Acked => kind.Pointed? || kind.Over?
    case Ambiguous => kind.Doubtful?
  }

  ghost predicate Replies(l: Ledger, l': Ledger, fate: Fate) {
    && l.worker.InFlight? && Has(l, l.worker.jobId)
    && exists kind {:trigger WithKind(l, l.worker.jobId, kind)} ::
         && Matches(fate, kind)
         && l' == WithKind(l, l.worker.jobId, kind).(worker := Idle, fates := l.fates[l.worker.jobId := fate])
  }

  /** An acknowledged job is followed up. */
  ghost predicate Polls(l: Ledger, l': Ledger, id: nat) {
    && l.worker.Idle? && Has(l, id) && At(l, id).kind.Pointed?
    && (l' == l || l' == WithKind(l, id, Over))
  }

  function Abandoned(worker: Worker, fates: map<nat, Fate>): map<nat, Fate> {
    if Busy(worker) then fates[worker.jobId := Ambiguous] else fates
  }

  /** Every unacknowledged job becomes doubtful: in the worker after an error, or when the tables are opened again. */
  ghost predicate Interrupts(l: Ledger, l': Ledger) {
    && (Alive(l.worker) || l.worker.Off?) && |l'.entries| == |l.entries|
    && l'.worker.Idle? && l'.posts == l.posts && l'.claims == l.claims
    && l'.fates == Abandoned(l.worker, l.fates)
    && forall id :: Has(l, id) ==>
         At(l', id) == if At(l, id).kind.Unacked? then At(l, id).(kind := Doubtful) else At(l, id)
  }

  /** The worker task ends, or the whole process does. */
  ghost predicate Stops(l: Ledger, l': Ledger) {
    && !l.worker.Off? && !Alive(l'.worker)
    && l' == l.(worker := l'.worker, fates := Abandoned(l.worker, l.fates))
  }

  /* ----- the invariant ----- */

  predicate IsBusyWith(l: Ledger, id: nat) {
    Busy(l.worker) && l.worker.jobId == id
  }

  /** No content is occupied twice. */
  ghost predicate ContentsInv(l: Ledger) {
    forall i, j :: Has(l, i) && Has(l, j) && i != j && At(l, i).contentId == At(l, j).contentId ==>
      !(Occupies(At(l, i).kind) && Occupies(At(l, j).kind))
  }

  /** Claims go up, each on its job's own day, and every queued job lies beyond them. */
  ghost predicate ClaimsInv(l: Ledger) {
    && (forall k :: 0 <= k < |l.claims| ==>
          && Has(l, l.claims[k].jobId) && !At(l, l.claims[k].jobId).kind.Queued?
          && At(l, l.claims[k].jobId).day == l.claims[k].day)
    && (forall j, k :: 0 <= j < k < |l.claims| ==> l.claims[j].jobId < l.claims[k].jobId)
    && (forall id :: Has(l, id) && At(l, id).kind.Queued? ==> LastClaim(l) < id)
  }

  /** Every job that ever ran is accounted for: its kind agrees with its fate, or it is the worker's own. */
  ghost predicate FatesInv(l: Ledger) {
    && (forall id :: Has(l, id) && (At(l, id).kind.Unacked? || At(l, id).kind.Pointed? || At(l, id).kind.Doubtful?) ==>
          id in l.fates || IsBusyWith(l, id))
    && (forall id :: id in l.fates ==>
          && Has(l, id) && id <= LastClaim(l)
          && (|| Matches(l.fates[id], At(l, id).kind)
              || (!Alive(l.worker) && l.fates[id].Ambiguous? && At(l, id).kind.Unacked?)))
    && (Busy(l.worker) ==>
          && Has(l, l.worker.jobId) && l.worker.jobId !in l.fates
          && At(l, l.worker.jobId).kind.Unacked? && LastClaim(l) == l.worker.jobId)
    && (forall i, j :: Has(l, i) && Has(l, j) && At(l, i).kind.Unacked? && At(l, j).kind.Unacked? ==> i == j)
  }

  /** POSTs go up, and of two POSTs for one content the earlier job no longer occupies it. */
  ghost predicate PostsInv(l: Ledger) {
    && (forall k :: 0 <= k < |l.posts| ==>
          && Has(l, l.posts[k].jobId) && At(l, l.posts[k].jobId).contentId == l.posts[k].contentId
          && l.posts[k].jobId <= LastClaim(l)
          && (l.posts[k].jobId in l.fates || l.worker == InFlight(l.posts[k].jobId)))
    && (forall j, k :: 0 <= j < k < |l.posts| ==> l.posts[j].jobId < l.posts[k].jobId)
    && (forall j, k :: 0 <= j < k < |l.posts| && l.posts[j].contentId == l.posts[k].contentId ==>
          !Occupies(At(l, l.posts[j].jobId).kind))
  }

  ghost predicate LedgerInv(l: Ledger) {
    ContentsInv(l) && ClaimsInv(l) && FatesInv(l) && PostsInv(l)
  }

  /* ----- preservation ----- */

  lemma SubmitsKeeps(l: Ledger, l': Ledger)
    requires LedgerInv(l) && Submits(l, l')
    ensures LedgerInv(l')
  {
    assert forall id :: Has(l, id) ==> Has(l', id) && At(l', id) == At(l, id);
  }

  /** A claim changes queued entries only, each to lapsed, except the claimed one. */
  ghost predicate OnlyQueuedChange(l: Ledger, l': Ledger, claimed: Option<nat>) {
    && |l'.entries| == |l.entries|
    && forall id: nat :: Has(l, id) ==>
         && At(l', id).contentId == At(l, id).contentId && At(l', id).day == At(l, id).day
         && (|| At(l', id).kind == At(l, id).kind
             || (At(l, id).kind.Queued? && At(l', id).kind == if claimed == Some(id) then Unacked else Lapsed))
  }

  lemma ClaimsKeepsFates(l: Ledger, l': Ledger, today: int, claimed: Option<nat>)
    requires ClaimsInv(l) && FatesInv(l) && Claims(l, l', today, claimed) && OnlyQueuedChange(l, l', claimed)
    ensures FatesInv(l')
  {
    assert forall id :: Has(l', id) <==> Has(l, id);
    assert forall id :: Has(l, id) && At(l, id).kind.Unacked? ==> id in l.fates && !Matches(l.fates[id], Unacked);
    if claimed.Some? {
      assert LastClaim(l') == claimed.value && LastClaim(l) < claimed.value;
    }
  }

  lemma ClaimsKeepsClaims(l: Ledger, l': Ledger, today: int, claimed: Option<nat>)
    requires ClaimsInv(l) && Claims(l, l', today, claimed) && OnlyQueuedChange(l, l', claimed)
    ensures ClaimsInv(l')
  {
    assert forall id :: Has(l', id) <==> Has(l, id);
    forall k | 0 <= k < |l.claims|
      ensures l'.claims[k] == l.claims[k] && l.claims[k].jobId <= LastClaim(l)
    {
    }
  }

  lemma ClaimsKeeps(l: Ledger, l': Ledger, today: int, claimed: Option<nat>)
    requires LedgerInv(l) && Claims(l, l', today, claimed)
    ensures LedgerInv(l')
  {
    assert OnlyQueuedChange(l, l', claimed);
    ClaimsKeepsFates(l, l', today, claimed);
    ClaimsKeepsClaims(l, l', today, claimed);
    ClaimsKeepsRest(l, l', today, claimed);
  }

  lemma ClaimsKeepsRest(l: Ledger, l': Ledger, today: int, claimed: Option<nat>)
    requires ContentsInv(l) && PostsInv(l) && ClaimsInv(l) && Claims(l, l', today, claimed)
      && OnlyQueuedChange(l, l', claimed)
    ensures ContentsInv(l') && PostsInv(l')
  {
    assert forall id :: Has(l', id) <==> Has(l, id);
    if claimed.Some? {
      assert LastClaim(l') == claimed.value && LastClaim(l) < claimed.value;
    }
  }

  lemma PostsKeeps(l: Ledger, l': Ledger)
    requires LedgerInv(l) && Posts(l, l')
    ensures LedgerInv(l')
  {
    assert forall id :: Has(l', id) <==> Has(l, id);
    assert forall id :: Has(l', id) ==> At(l', id) == At(l, id);
    assert forall k :: 0 <= k < |l.posts| ==> l'.posts[k] == l.posts[k] && l.posts[k].jobId < l.worker.jobId;
  }

  /** Replacing one kind by one that occupies no more, within its fate, keeps everything that is not about that job. */
  lemma WithKindKeeps(l: Ledger, id: nat, kind: Kind)
    requires Has(l, id) && !kind.Queued? && (Occupies(kind) ==> Occupies(At(l, id).kind))
    requires ContentsInv(l) && ClaimsInv(l)
    ensures ContentsInv(WithKind(l, id, kind)) && ClaimsInv(WithKind(l, id, kind))
  {
    var l' := WithKind(l, id, kind);
    assert forall other :: Has(l', other) <==> Has(l, other);
    assert forall other :: Has(l', other) ==>
      At(l', other) == if other == id then At(l, id).(kind := kind) else At(l, other);
  }

  lemma RepliesKeeps(l: Ledger, l': Ledger, fate: Fate)
    requires LedgerInv(l) && Replies(l, l', fate)
    ensures LedgerInv(l')
  {
    var id := l.worker.jobId;
    var kind :| Matches(fate, kind) && l' == WithKind(l, id, kind).(worker := Idle, fates := l.fates[id := fate]);
    WithKindKeeps(l, id, kind);
    RepliesKeepsFates(l, l', fate, kind);
    assert forall other :: Has(l', other) <==> Has(l, other);
    assert forall other :: Has(l', other) && other != id ==> At(l', other) == At(l, other);
  }

  lemma RepliesKeepsFates(l: Ledger, l': Ledger, fate: Fate, kind: Kind)
    requires FatesInv(l) && l.worker.InFlight? && Has(l, l.worker.jobId) && Matches(fate, kind)
    requires l' == WithKind(l, l.worker.jobId, kind).(worker := Idle, fates := l.fates[l.worker.jobId := fate])
    ensures FatesInv(l')
  {
    var id := l.worker.jobId;
    assert forall other :: Has(l', other) <==> Has(l, other);
    assert forall other :: Has(l', other) && other != id ==> At(l', other) == At(l, other);
  }

  lemma PollsKeeps(l: Ledger, l': Ledger, id: nat)
    requires LedgerInv(l) && Polls(l, l', id)
    ensures LedgerInv(l')
  {
    WithKindKeeps(l, id, Over);
    assert forall other :: Has(l', other) <==> Has(l, other);
    assert forall other :: Has(l', other) && other != id ==> At(l', other) == At(l, other);
    assert l.fates[id].Acked?;
  }

  ghost predicate SameOccupancy(l: Ledger, l': Ledger) {
    && |l'.entries| == |l.entries|
    && forall id :: Has(l, id) ==>
         && At(l', id).contentId == At(l, id).contentId && At(l', id).day == At(l, id).day
         && (Occupies(At(l', id).kind) <==> Occupies(At(l, id).kind))
         && (At(l', id).kind.Queued? <==> At(l, id).kind.Queued?)
  }

  lemma InterruptsKeepsFates(l: Ledger, l': Ledger)
    requires FatesInv(l) && Interrupts(l, l')
    ensures FatesInv(l')
    ensures forall id :: Has(l', id) ==> !At(l', id).kind.Unacked?
  {
    assert forall id :: Has(l', id) <==> Has(l, id);
    forall id | Has(l, id) && At(l, id).kind.Unacked?
      ensures id in l'.fates && l'.fates[id].Ambiguous?
    {
    }
  }

  lemma InterruptsKeeps(l: Ledger, l': Ledger)
    requires LedgerInv(l) && Interrupts(l, l')
    ensures LedgerInv(l')
    ensures forall id :: Has(l', id) ==> !At(l', id).kind.Unacked?
  {
    InterruptsKeepsFates(l, l');
    assert SameOccupancy(l, l');
    assert forall id :: Has(l', id) <==> Has(l, id);
  }

  lemma StopsKeeps(l: Ledger, l': Ledger)
    requires LedgerInv(l) && Stops(l, l')
    ensures LedgerInv(l')
  {
    assert forall id :: Has(l', id) <==> Has(l, id);
    assert forall id :: Has(l', id) ==> At(l', id) == At(l, id);
  }

  /* ----- what the invariant says ----- */

  /** While the outcome of a job is in doubt, the job that is about to be posted is for another content. */
  lemma DoubtBars(l: Ledger, id: nat)
    requires ContentsInv(l) && FatesInv(l) && id in l.fates && l.fates[id].Ambiguous?
    ensures Has(l, id)
    ensures Busy(l.worker) ==> Has(l, l.worker.jobId) && At(l, l.worker.jobId).contentId != At(l, id).contentId
  {
    assert Occupies(At(l, id).kind);
  }

  /** When a POST leaves for a content once more, every earlier job of it is over with a fate the Writer vouched for. */
  lemma RepostOnlyAfterDefinite(l: Ledger, l': Ledger, k: nat)
    requires LedgerInv(l) && Posts(l, l') && k < |l.posts|
    requires l.posts[k].contentId == At(l, l.worker.jobId).contentId
    ensures l.posts[k].jobId < l.worker.jobId
    ensures At(l, l.posts[k].jobId).kind.Over?
    ensures l.posts[k].jobId in l.fates && !l.fates[l.posts[k].jobId].Ambiguous?
  {
    PostsKeeps(l, l');
    var n := |l.posts|;
    assert l'.posts[k] == l.posts[k] && l'.posts[n].jobId == l.worker.jobId;
    assert !Occupies(At(l', l'.posts[k].jobId).kind);
  }
}
