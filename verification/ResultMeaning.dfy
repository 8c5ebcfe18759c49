/** What the sanitiser lets through, member by member and by the literal values it knows. */
module ResultMeaning {
  import opened Wrappers
  import opened Json
  import opened WriterProtocol

  /** A known text is kept, everything else becomes "unknown". */
  predicate Filtered(value: Json, result: Json, known: set<Json>) {
    result == if value in known then value else Str("unknown")
  }

  const STAGES: set<Json> := {Str("detail"), Str("detail_type_probe"), Str("metrics"), Str("comments")}
  const STAGE_ENDS: set<Json> := {Str("succeeded"), Str("replayed"), Str("already_succeeded"), Str("failed")}
  const FIELDS: set<Json> := {
    Str("view_count"), Str("comment_count"), Str("like_count"), Str("share_count"), Str("collect_count")
  }
  const MEDIA: set<Json> := {
    Str("evidence_ready"), Str("restore_required"), Str("expired_non_replayable"), Str("retryable_failed"),
    Str("no_source"), Str("legacy_source_skipped")
  }

  lemma KnownTexts(value: Json)
    ensures Filtered(value, Known(value, STAGE_NAMES), STAGES)
      && Filtered(value, Known(value, STAGE_STATUSES), STAGE_ENDS)
    ensures Filtered(value, Known(value, METRIC_STATUSES), {Str("succeeded"), Str("partial")})
    ensures Filtered(value, Known(value, MEDIA_STATUSES), MEDIA)
    ensures IsText(value, METRIC_FIELDS) <==> value in FIELDS
    ensures IsText(value, RESULT_STATUSES) <==> value in {Str("succeeded"), Str("partial"), Str("failed")}
  {
  }

  /** The largest float lies just below 2^1024: from 2^1024 - 2^970 on, an integer rounds beyond it. */
  lemma FloatLimit()
    ensures FLOAT_LIMIT + PowerOfTwo(970) == PowerOfTwo(1024)
  {
    PowerSum(54, 970);
  }

  lemma {:induction false} PowerSum(m: nat, n: nat)
    ensures PowerOfTwo(m + n) == PowerOfTwo(m) * PowerOfTwo(n)
    ensures PowerOfTwo(0) == 1 && PowerOfTwo(m + 1) == 2 * PowerOfTwo(m)
  {
    if m > 0 {
      PowerSum(m - 1, n);
      assert PowerOfTwo(m + n) == 2 * PowerOfTwo(m - 1 + n);
    }
  }

  /** A list or an object where a text is looked up. */
  predicate Nested(value: Json) {
    value.Arr? || value.Obj?
  }

  predicate StageNested(item: Json) {
    item.Obj? && (Nested(Get(item, "stage")) || Nested(Get(item, "status")))
  }

  /** Exactly these payloads are accepted. */
  lemma AcceptedExactly(payload: Json)
    ensures SafeResult(payload).Accepted? <==>
      && payload.Obj? && Get(payload, "status") in {Str("succeeded"), Str("partial"), Str("failed")}
      && !(Get(payload, "provider_cost").Int? && (Get(payload, "provider_cost").number >= FLOAT_LIMIT
                                                  || Get(payload, "provider_cost").number <= -FLOAT_LIMIT))
      && (Get(payload, "stages").Arr? ==> forall i :: 0 <= i < |Get(payload, "stages").items| && i < 20 ==>
            !StageNested(Get(payload, "stages").items[i]))
      && (Get(payload, "metrics").Obj? ==> !Nested(Get(Get(payload, "metrics"), "status")))
      && (Get(payload, "metrics").Obj? && Get(Get(payload, "metrics"), "missing_fields").Arr? ==>
            forall field <- Get(Get(payload, "metrics"), "missing_fields").items :: !Nested(field))
      && (Get(payload, "media").Obj? ==> !Nested(Get(Get(payload, "media"), "status")))
    ensures !payload.Obj? || Get(payload, "status") !in {Str("succeeded"), Str("partial"), Str("failed")} ==>
      !SafeResult(payload).Accepted? && SafeResult(payload) != OverflowFault
  {
    if payload.Obj? && Get(payload, "stages").Arr? {
      var items := Get(payload, "stages").items;
      StagesNested(items);
    }
  }

  lemma StagesNested(items: seq<Json>)
    ensures StagesFault(Arr(items)) <==> exists i :: 0 <= i < |items| && i < 20 && StageNested(items[i])
  {
    var first := FirstTwenty(items);
    if StagesFault(Arr(items)) {
      var item :| item in first
        && (Unhashable(Get(StageItem(item), "stage")) || Unhashable(Get(StageItem(item), "status")));
      var i :| 0 <= i < |first| && first[i] == item;
      assert items[i] == item && StageNested(items[i]);
    }
    if i :| 0 <= i < |items| && i < 20 && StageNested(items[i]) {
      assert first[i] == items[i] && items[i] in first;
    }
  }

  /** The first twenty stages, each reduced to two known texts. */
  predicate StagesKept(items: seq<Json>, kept: seq<Json>) {
    && |kept| == (if |items| > 20 then 20 else |items|)
    && forall i :: 0 <= i < |kept| ==>
         && kept[i].Obj? && kept[i].fields.Keys == {"stage", "status"}
         && Filtered(if items[i].Obj? then Get(items[i], "stage") else Null, Get(kept[i], "stage"), STAGES)
         && Filtered(if items[i].Obj? then Get(items[i], "status") else Null, Get(kept[i], "status"), STAGE_ENDS)
  }

  lemma StagesMeaning(items: seq<Json>)
    ensures StagesKept(items, SafeStages(items))
  {
    var kept := SafeStages(items);
    forall i | 0 <= i < |kept|
      ensures kept[i].Obj? && kept[i].fields.Keys == {"stage", "status"}
      ensures Filtered(if items[i].Obj? then Get(items[i], "stage") else Null, Get(kept[i], "stage"), STAGES)
      ensures Filtered(if items[i].Obj? then Get(items[i], "status") else Null, Get(kept[i], "status"), STAGE_ENDS)
    {
      assert kept[i] == SafeStage(items[i]);
    }
  }

  /** Only the known names, in their order. */
  predicate NamesKept(fields: seq<Json>, kept: seq<Json>)
    decreases |fields|
  {
    if fields == [] then kept == []
    else if fields[0] in FIELDS then kept != [] && kept[0] == fields[0] && NamesKept(fields[1..], kept[1..])
    else NamesKept(fields[1..], kept)
  }

  lemma {:induction false} NamesMeaning(fields: seq<Json>)
    ensures NamesKept(fields, KeepFields(fields))
  {
    if fields != [] {
      NamesMeaning(fields[1..]);
      KnownTexts(fields[0]);
      if fields[0] in FIELDS {
        assert KeepFields(fields)[1..] == KeepFields(fields[1..]);
      } else {
        assert KeepFields(fields) == KeepFields(fields[1..]);
      }
    }
  }

  predicate MetricsKept(metrics: Json, kept: Json)
    requires metrics.Obj?
  {
    && kept.Obj? && kept.fields.Keys == {"status", "missing_fields"}
    && Filtered(Get(metrics, "status"), Get(kept, "status"), {Str("succeeded"), Str("partial")})
    && Get(kept, "missing_fields").Arr?
    && NamesKept(if Get(metrics, "missing_fields").Arr? then Get(metrics, "missing_fields").items else [],
                 Get(kept, "missing_fields").items)
  }

  predicate MediaKept(media: Json, kept: Json)
    requires media.Obj?
  {
    && kept.Obj? && "status" in kept.fields && kept.fields.Keys <= {"status", "reason", "can_restore"}
    && Filtered(Get(media, "status"), Get(kept, "status"), MEDIA)
    && ("reason" in kept.fields <==> Get(media, "reason") == Str("original_restoring"))
    && ("reason" in kept.fields ==> kept.fields["reason"] == Str("original_restoring"))
    && ("can_restore" in kept.fields <==> Get(media, "can_restore").Bool?)
    && ("can_restore" in kept.fields ==> kept.fields["can_restore"] == Get(media, "can_restore"))
  }

  /** A cost is kept if it is a number that is not negative. */
  predicate CostKept(cost: Json, kept: Json) {
    if (cost.Int? && cost.number >= 0) || (cost.Float? && cost.float.Finite? && cost.float.number >= 0.0) then
      kept == cost
    else kept == Null
  }

  /** And this is what becomes of an accepted one. */
  lemma AcceptedMeaning(payload: Json)
    requires SafeResult(payload).Accepted?
    ensures payload.Obj? && SafeResult(payload).result.Obj?
    ensures var result := SafeResult(payload).result;
      && Get(result, "status") == Get(payload, "status")
      && CostKept(Get(payload, "provider_cost"), Get(result, "provider_cost"))
      && Filtered(Get(payload, "currency"), Get(result, "currency"), {Str("USD")})
  {
    SafeFieldsParts(payload);
  }

  lemma AcceptedParts(payload: Json)
    requires SafeResult(payload).Accepted?
    ensures payload.Obj? && SafeResult(payload).result.Obj?
    ensures var result := SafeResult(payload).result;
      && ("stages" in result.fields <==> Get(payload, "stages").Arr?)
      && ("stages" in result.fields ==>
            Get(result, "stages").Arr? && StagesKept(Get(payload, "stages").items, Get(result, "stages").items))
      && ("metrics" in result.fields <==> Get(payload, "metrics").Obj?)
      && ("metrics" in result.fields ==> MetricsKept(Get(payload, "metrics"), Get(result, "metrics")))
  {
    SafeFieldsParts(payload);
    var stages, metrics := Get(payload, "stages"), Get(payload, "metrics");
    if stages.Arr? { StagesMeaning(stages.items); }
    if metrics.Obj? { MetricsMeaning(metrics); }
  }

  lemma AcceptedMedia(payload: Json)
    requires SafeResult(payload).Accepted?
    ensures payload.Obj? && SafeResult(payload).result.Obj?
    ensures var result := SafeResult(payload).result;
      && ("media" in result.fields <==> Get(payload, "media").Obj?)
      && ("media" in result.fields ==> MediaKept(Get(payload, "media"), Get(result, "media")))
  {
    SafeFieldsParts(payload);
    var media := Get(payload, "media");
    if media.Obj? { MediaMeaning(media); }
  }

  lemma MediaMeaning(media: Json)
    requires media.Obj?
    ensures MediaKept(media, SafeMedia(media))
  {
    KnownTexts(Get(media, "status"));
  }

  lemma MetricsMeaning(metrics: Json)
    requires metrics.Obj?
    ensures MetricsKept(metrics, SafeMetrics(metrics))
  {
    KnownTexts(Get(metrics, "status"));
    NamesMeaning(if Get(metrics, "missing_fields").Arr? then Get(metrics, "missing_fields").items else []);
  }
}
