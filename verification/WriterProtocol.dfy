/**
  The values exchanged with the Writer and kept in the `result_json` column of a job:
  the durable command pointer, the sanitised result, and the shared encoding of both.
  Serialising a value and parsing it again is taken to be the identity.
 */
module WriterProtocol {
  import opened Wrappers
  import opened Json

  const COMMAND_CONTRACT := "content-update-writer-command-v1"

  /** A durable acknowledgement: the Writer run that owns the update of one content. */
  datatype Command = Command(runId: int, contentId: int)

  predicate ValidCommand(command: Command, contentId: int) {
    command.runId > 0 && command.contentId == contentId
  }

  function CommandJson(command: Command): Json {
    Obj(map["contract" := Str(COMMAND_CONTRACT), "run_id" := Int(command.runId),
      "content_id" := Int(command.contentId)])
  }

  /** Reads a pointer, accepting only the exact contract and the job's own content. */
  function WriterCommand(value: Json, contentId: int): Option<Command> {
    if !value.Obj? || Get(value, "contract") != Str(COMMAND_CONTRACT) then None
    else if !Get(value, "run_id").Int? || Get(value, "run_id").number <= 0 then None
    else if Get(value, "content_id") != Int(contentId) then None
    else Some(Command(Get(value, "run_id").number, contentId))
  }

  /** The pointer inside the result column, if any. */
  function StoredCommand(column: Option<Json>, contentId: int): Option<Command> {
    if column.Some? && column.value.Obj? then WriterCommand(Get(column.value, "writer_command"), contentId) else None
  }

  /** What is written when the Writer acknowledges a command. */
  function PointerColumn(command: Command): Option<Json> {
    Some(Obj(map["writer_command" := CommandJson(command)]))
  }

  /** What is written when a job finishes; a falsy value is stored as NULL. */
  function FinishColumn(command: Option<Command>, result: Option<Json>): Option<Json> {
    match command
    case Some(pointer) =>
      Some(Obj(map["writer_command" := CommandJson(pointer), "result" := if result.Some? then result.value else Null]))
    case None =>
      if result == Some(Obj(map[])) then None else result
  }

  /** The result shown to the browser: the pointer never leaves the service. */
  function PublicResult(column: Option<Json>, contentId: int): Json {
    match column
    case None => Null
    case Some(persisted) =>
      if persisted.Obj? && StoredCommand(column, contentId).Some? then Get(persisted, "result") else persisted
  }

  /* ----- the sanitised result ----- */

  const RESULT_STATUSES: set<string> := {"succeeded", "partial", "failed"}
  const STAGE_NAMES: set<string> := {"detail", "detail_type_probe", "metrics", "comments"}
  const STAGE_STATUSES: set<string> := {"succeeded", "replayed", "already_succeeded", "failed"}
  const METRIC_STATUSES: set<string> := {"succeeded", "partial"}
  const METRIC_FIELDS: set<string> := {"view_count", "comment_count", "like_count", "share_count", "collect_count"}
  const MEDIA_STATUSES: set<string> := {
    "evidence_ready", "restore_required", "expired_non_replayable", "retryable_failed", "no_source",
    "legacy_source_skipped"
  }

  function PowerOfTwo(n: nat): (power: int)
    ensures power > 0
  {
    if n == 0 then 1 else 2 * PowerOfTwo(n - 1)
  }

  /** An integer that large has no float value: testing it for finiteness raises OverflowError. */
  const FLOAT_LIMIT: int := (PowerOfTwo(54) - 1) * PowerOfTwo(970) // 2^1024 - 2^970

  /** The sanitiser returns a result, returns None, or raises. */
  datatype Sanitized = Accepted(result: Json) | Declined | TypeFault | OverflowFault

  function Known(value: Json, choices: set<string>): Json {
    if IsText(value, choices) then value else Str("unknown")
  }

  predicate CostOverflows(cost: Json) {
    cost.Int? && (cost.number >= FLOAT_LIMIT || cost.number <= -FLOAT_LIMIT)
  }

  function SafeCost(cost: Json): Json {
    if cost.Int? && cost.number >= 0 then cost
    else if cost.Float? && cost.float.Finite? && cost.float.number >= 0.0 then cost
    else Null
  }

  function StageItem(item: Json): Json {
    if item.Obj? then item else Obj(map[])
  }

  function SafeStage(item: Json): Json {
    Obj(map["stage" := Known(Get(StageItem(item), "stage"), STAGE_NAMES),
            "status" := Known(Get(StageItem(item), "status"), STAGE_STATUSES)])
  }

  function FirstTwenty(items: seq<Json>): seq<Json> {
    if |items| <= 20 then items else items[..20]
  }

  function SafeStages(items: seq<Json>): seq<Json> {
    seq(|FirstTwenty(items)|, i requires 0 <= i < |FirstTwenty(items)| => SafeStage(FirstTwenty(items)[i]))
  }

  function KeepFields(fields: seq<Json>): (kept: seq<Json>)
    ensures forall field <- kept :: IsText(field, METRIC_FIELDS)
  {
    if fields == [] then []
    else (if IsText(fields[0], METRIC_FIELDS) then [fields[0]] else []) + KeepFields(fields[1..])
  }

  function SafeMetrics(metrics: Json): Json
    requires metrics.Obj?
  {
    var fields := Get(metrics, "missing_fields");
    Obj(map["status" := Known(Get(metrics, "status"), METRIC_STATUSES),
            "missing_fields" := Arr(if fields.Arr? then KeepFields(fields.items) else [])])
  }

  function SafeMedia(media: Json): Json
    requires media.Obj?
  {
    Obj(map["status" := Known(Get(media, "status"), MEDIA_STATUSES)]
        + (if Get(media, "reason") == Str("original_restoring") then map["reason" := Str("original_restoring")]
          else map[])
        + (if Get(media, "can_restore").Bool? then map["can_restore" := Get(media, "can_restore")] else map[]))
  }

  /** Some membership test of the sanitiser meets a list or an object. */
  predicate StagesFault(stages: Json) {
    stages.Arr? && exists item <- FirstTwenty(stages.items) ::
      Unhashable(Get(StageItem(item), "stage")) || Unhashable(Get(StageItem(item), "status"))
  }

  predicate MetricsFault(metrics: Json) {
    && metrics.Obj?
    && (|| Unhashable(Get(metrics, "status"))
        || (Get(metrics, "missing_fields").Arr? &&
            exists field <- Get(metrics, "missing_fields").items :: Unhashable(field)))
  }

  predicate MediaFault(media: Json) {
    media.Obj? && Unhashable(Get(media, "status"))
  }

  /** Adds an optional member. */
  function Put(fields: map<string, Json>, present: bool, name: string, value: Json): map<string, Json> {
    if present then fields[name := value] else fields
  }

  function BaseFields(payload: Json): map<string, Json>
    requires payload.Obj?
  {
    map["status" := Get(payload, "status"),
        "provider_cost" := SafeCost(Get(payload, "provider_cost")),
        "currency" := if Get(payload, "currency") == Str("USD") then Str("USD") else Str("unknown")]
  }

  function SafeFields(payload: Json): map<string, Json>
    requires payload.Obj?
  {
    var stages, metrics, media := Get(payload, "stages"), Get(payload, "metrics"), Get(payload, "media");
    var withStages := Put(BaseFields(payload), stages.Arr?, "stages",
      Arr(if stages.Arr? then SafeStages(stages.items) else []));
    var withMetrics := Put(withStages, metrics.Obj?, "metrics", if metrics.Obj? then SafeMetrics(metrics) else Null);
    Put(withMetrics, media.Obj?, "media", if media.Obj? then SafeMedia(media) else Null)
  }

  /** Copies only the fields the browser needs, each restricted to its known values. */
  function SafeResult(payload: Json): Sanitized {
    if !payload.Obj? then Declined
    else if Unhashable(Get(payload, "status")) then TypeFault
    else if !IsText(Get(payload, "status"), RESULT_STATUSES) then Declined
    else if CostOverflows(Get(payload, "provider_cost")) then OverflowFault
    else if StagesFault(Get(payload, "stages")) || MetricsFault(Get(payload, "metrics"))
      || MediaFault(Get(payload, "media"))
    then TypeFault
    else Accepted(Obj(SafeFields(payload)))
  }

  /** A value the sanitiser can have produced. */
  ghost predicate IsSafe(result: Json) {
    exists payload :: SafeResult(payload) == Accepted(result)
  }

  lemma SafeFieldsKeys(payload: Json)
    requires payload.Obj?
    ensures SafeFields(payload).Keys <= {"status", "provider_cost", "currency", "stages", "metrics", "media"}
    ensures "status" in SafeFields(payload) && SafeFields(payload)["status"] == Get(payload, "status")
  {
  }

  /** The sanitised result never carries the private pointer key, and always carries a known status. */
  lemma SafeResultShape(result: Json)
    requires IsSafe(result)
    ensures result.Obj? && result.fields != map[]
    ensures result.fields.Keys <= {"status", "provider_cost", "currency", "stages", "metrics", "media"}
    ensures "writer_command" !in result.fields && "result" !in result.fields
    ensures IsText(Get(result, "status"), RESULT_STATUSES)
  {
    var payload :| SafeResult(payload) == Accepted(result);
    SafeFieldsKeys(payload);
  }

  lemma KeepFieldsIdempotent(fields: seq<Json>)
    requires forall field <- fields :: IsText(field, METRIC_FIELDS)
    ensures KeepFields(fields) == fields
  {
  }

  lemma SafeStagesIdempotent(items: seq<Json>)
    ensures SafeStages(SafeStages(items)) == SafeStages(items)
    ensures !StagesFault(Arr(SafeStages(items)))
  {
    var safe := SafeStages(items);
    assert |safe| <= 20 && FirstTwenty(safe) == safe;
    forall i | 0 <= i < |safe|
      ensures SafeStage(safe[i]) == safe[i]
      ensures !Unhashable(Get(StageItem(safe[i]), "stage")) && !Unhashable(Get(StageItem(safe[i]), "status"))
    {
      assert safe[i] == SafeStage(FirstTwenty(items)[i]);
    }
  }

  lemma SafeMetricsIdempotent(metrics: Json)
    requires metrics.Obj?
    ensures SafeMetrics(SafeMetrics(metrics)) == SafeMetrics(metrics)
    ensures !MetricsFault(SafeMetrics(metrics))
  {
    var safe := SafeMetrics(metrics);
    var kept := Get(safe, "missing_fields");
    assert kept.Arr?;
    KeepFieldsIdempotent(kept.items);
  }

  lemma SafeMediaIdempotent(media: Json)
    requires media.Obj?
    ensures SafeMedia(SafeMedia(media)) == SafeMedia(media)
    ensures !MediaFault(SafeMedia(media))
  {
  }

  /** The optional members of the sanitised result, read back one by one. */
  lemma SafeFieldsParts(payload: Json)
    requires payload.Obj?
    ensures var safe := Obj(SafeFields(payload));
      && Get(safe, "status") == Get(payload, "status")
      && Get(safe, "provider_cost") == SafeCost(Get(payload, "provider_cost"))
      && (Get(safe, "currency") == Str("USD") <==> Get(payload, "currency") == Str("USD"))
      && Get(safe, "stages") == (var stages := Get(payload, "stages");
        if stages.Arr? then Arr(SafeStages(stages.items)) else Null)
      && Get(safe, "metrics") == (var metrics := Get(payload, "metrics");
        if metrics.Obj? then SafeMetrics(metrics) else Null)
      && Get(safe, "media") == (var media := Get(payload, "media"); if media.Obj? then SafeMedia(media) else Null)
  {
  }

  /** Payloads that agree on every member the sanitiser reads after its own sanitising have the same fields. */
  lemma SafeFieldsCongruent(left: Json, right: Json)
    requires left.Obj? && right.Obj?
    requires Get(left, "status") == Get(right, "status")
    requires SafeCost(Get(left, "provider_cost")) == SafeCost(Get(right, "provider_cost"))
    requires Get(left, "currency") == Str("USD") <==> Get(right, "currency") == Str("USD")
    requires var l, r := Get(left, "stages"), Get(right, "stages");
      l.Arr? == r.Arr? && (l.Arr? ==> SafeStages(l.items) == SafeStages(r.items))
    requires var l, r := Get(left, "metrics"), Get(right, "metrics");
      l.Obj? == r.Obj? && (l.Obj? ==> SafeMetrics(l) == SafeMetrics(r))
    requires var l, r := Get(left, "media"), Get(right, "media");
      l.Obj? == r.Obj? && (l.Obj? ==> SafeMedia(l) == SafeMedia(r))
    ensures SafeFields(left) == SafeFields(right)
  {
    assert BaseFields(left) == BaseFields(right);
  }

  /** Sanitising twice changes nothing and can no longer fail: the result is a fixed point. */
  lemma SafeResultIdempotent(payload: Json)
    requires SafeResult(payload).Accepted?
    ensures SafeResult(SafeResult(payload).result) == SafeResult(payload)
  {
    var safe := SafeResult(payload).result;
    SafeFieldsParts(payload);
    var stages, metrics, media := Get(payload, "stages"), Get(payload, "metrics"), Get(payload, "media");
    if stages.Arr? {
      SafeStagesIdempotent(stages.items);
    }
    if metrics.Obj? {
      SafeMetricsIdempotent(metrics);
    }
    if media.Obj? {
      SafeMediaIdempotent(media);
    }
    SafeFieldsCongruent(safe, payload);
  }

  /* ----- the column round trip ----- */

  lemma PointerRoundTrip(command: Command, contentId: int)
    requires ValidCommand(command, contentId)
    ensures WriterCommand(CommandJson(command), contentId) == Some(command)
    ensures StoredCommand(PointerColumn(command), contentId) == Some(command)
    ensures PublicResult(PointerColumn(command), contentId) == Null
  {
  }

  /** By its members: what counts as a stored command of a content, and which command it is. */
  lemma PointerExactly(fields: map<string, Json>, contentId: int)
    ensures WriterCommand(Obj(fields), contentId).Some? <==>
      && "contract" in fields && fields["contract"] == Str("content-update-writer-command-v1")
      && "run_id" in fields && fields["run_id"].Int? && fields["run_id"].number > 0
      && "content_id" in fields && fields["content_id"] == Int(contentId)
    ensures WriterCommand(Obj(fields), contentId).Some? ==>
      WriterCommand(Obj(fields), contentId).value == Command(fields["run_id"].number, contentId)
    ensures "writer_command" in fields ==>
      StoredCommand(Some(Obj(fields)), contentId) == WriterCommand(fields["writer_command"], contentId)
  {
  }

  /** One column holds the pointer and the public result; both are read back exactly. */
  lemma ColumnRoundTrip(command: Option<Command>, result: Option<Json>, contentId: int)
    requires command.Some? ==> ValidCommand(command.value, contentId)
    requires result.Some? ==> IsSafe(result.value)
    ensures StoredCommand(FinishColumn(command, result), contentId) == command
    ensures PublicResult(FinishColumn(command, result), contentId) == (if result.Some? then result.value else Null)
  {
    if result.Some? {
      SafeResultShape(result.value);
    }
    if command.Some? {
      PointerRoundTrip(command.value, contentId);
    }
  }

  /* ----- the Writer's status endpoint ----- */

  datatype ErrorCode =
    | ResultUncertain
    | QueueExpired
    | UpdateFailed
    | CommandFailed
    | CommandBlocked
    | WriterHttp(status: int)

  /** A definite end of an acknowledged command. */
  datatype Terminal = Terminal(result: Json, code: Option<ErrorCode>)

  predicate TerminalWork(item: Json) {
    && item.Obj?
    && Get(item, "id").Int? && Get(item, "id").number > 0
    && Get(item, "state") == Str("terminal")
    && Get(item, "completed_at").Str? && Get(item, "completed_at").text != ""
  }

  /** Only the status is taken over: the endpoint has no authoritative cost or stage totals. */
  function StatusOnly(status: string): Json {
    Obj(map["status" := Str(status), "provider_cost" := Null, "currency" := Str("unknown")])
  }

  function CommandTerminal(payload: Json, command: Command): Option<Terminal> {
    if !payload.Obj? || Get(payload, "run_id") != Int(command.runId)
      || Get(payload, "content_id") != Int(command.contentId)
       || Get(payload, "kind") != Str("manual_update") || !Get(payload, "work").Arr?
    then None
    else
      var status, work := Get(payload, "status"), Get(payload, "work").items;
      if IsText(status, {"succeeded", "partial"}) then
        if work != [] && forall item <- work :: TerminalWork(item) then Some(Terminal(StatusOnly(status.text), None))
          else None
      else if status == Str("failed") then Some(Terminal(StatusOnly("failed"), Some(CommandFailed)))
      else if status == Str("blocked") && work == [] then Some(Terminal(StatusOnly("failed"), Some(CommandBlocked)))
      else None
  }

  /** A terminal command yields exactly the sanitised form of its status, and an error code exactly when it failed. */
  lemma CommandTerminalIsSafe(payload: Json, command: Command)
    requires CommandTerminal(payload, command).Some?
    ensures var terminal := CommandTerminal(payload, command).value;
      && SafeResult(Obj(map["status" := Get(terminal.result, "status")])) == Accepted(terminal.result)
      && IsSafe(terminal.result)
      && (terminal.code.Some? <==> Get(terminal.result, "status") == Str("failed"))
      && (terminal.code.Some? ==> terminal.code.value in {CommandFailed, CommandBlocked})
  {
    var terminal := CommandTerminal(payload, command).value;
    var bare := Obj(map["status" := Get(terminal.result, "status")]);
    assert SafeFields(bare) == terminal.result.fields;
    assert SafeResult(bare) == Accepted(terminal.result);
  }
}
