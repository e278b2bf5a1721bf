/** The persisting report pipeline (src/lib/report-config.ts): request parameters from a stored
    config, the row deduplicator, and `generateAndSendReport`, which fetches, summarises,
    deduplicates, stores a generated report, records the run in the config's metadata and
    optionally mails the result. The fetch and the summariser are function parameters. */
module ReportGeneration {
  import opened Common
  import opened Json
  import opened Dedupe
  import opened ApiClient
  import opened Store
  import opened SvgChart
  import opened Email

  /** The outcome of an async pipeline call: the object it returns, or the rejection it
      raises when even the failure handler throws. */
  datatype Outcome = Returned(success: bool, error: Option<string>) | Rejected(reason: string)

  /** The fixed message `generateReportSummary` rethrows on any failure, an empty summary included. */
  const SummaryError := "Failed to generate report summary from OpenAI."

  /** `email || undefined`: an empty address is dropped. */
  function EmailOrUndefined(email: Option<string>): (r: Option<string>)
    ensures r.Some? <==> email.Some? && email.value != ""
    ensures r.Some? ==> r == email
  {
    if email.Some? && email.value != "" then email else None
  }

  /** The `ReportParams` of `buildReportContent` (lines 14-22): the range comes from `dateRangeEnum`. */
  function ParamsFor(config: ReportConfig): (p: ReportParams)
    ensures p.metrics == Split(config.metrics, ',')
    ensures p.dateRangeEnum == config.dateRangeEnum
    ensures p.platform == config.platform && p.level == config.level
    ensures p.email == EmailOrUndefined(config.email)
  {
    ReportParams(config.platform, Split(config.metrics, ','), config.level, config.dateRangeEnum,
                 config.cadence, config.delivery, EmailOrUndefined(config.email))
  }

  /** The metrics requested are the stored list split on commas: at least one entry, none
      containing a comma, and joining them gives the stored text back. */
  lemma ParamsMetrics(config: ReportConfig)
    ensures var ms := ParamsFor(config).metrics;
      |ms| >= 1 && (forall i :: 0 <= i < |ms| ==> ',' !in ms[i]) && Join(ms, ',') == config.metrics
  {
    JoinSplit(config.metrics, ',');
  }

  /** `generateReportSummary` on the fetched data, with `None` for a failed call. */
  function Summarize(summarize: Json -> Option<string>, data: Json): (r: Result<string, string>)
    ensures r.Ok? <==> summarize(data).Some? && summarize(data).value != ""
    ensures r.Err? ==> r.error == SummaryError
  {
    match summarize(data)
    case Some(s) => if s == "" then Err(SummaryError) else Ok(s)
    case None => Err(SummaryError)
  }

  // ---------------------------------------------------------------------------------------
  // removeDuplicateDataObjects

  /** The deduplication key of lines 49-54; items that are not objects (null included) have
      none and are always kept. Arrays are objects here and get a key. */
  function RowKey(item: Json): Option<string> {
    if !IsObjectLike(item) then None
    else Some(StrOr(Prop(item, "age"), "Unknown") + "_" + StrOr(Prop(item, "date_start"), "") + "_"
              + StrOr(Prop(item, "date_stop"), ""))
  }

  /** What `removeDuplicateDataObjects` returns: a non-array or an empty array unchanged,
      otherwise the first item of each key together with every item without a key. */
  function DedupeObjects(data: Json): Json {
    if !data.JArr? || |data.items| == 0 then data
    else JArr(Kept(data.items, RowKey, |data.items|))
  }

  method RemoveDuplicateDataObjects(data: Json) returns (r: Json)
    ensures r == DedupeObjects(data)
  {
    if !data.JArr? || |data.items| == 0 {
      return data;
    }
    var items := data.items;
    var seen: map<string, bool> := map[];
    var cleanedData: seq<Json> := [];
    var i := 0;
    while i < |items|
      invariant 0 <= i <= |items|
      invariant cleanedData == Kept(items, RowKey, i)
      invariant seen.Keys == KeysOf(items, RowKey, i)
    {
      var item := items[i];
      FirstOfKeyBySeen(items, RowKey, i);
      if !IsObjectLike(item) {
        cleanedData := cleanedData + [item];
      } else {
        var ageGroup := StrOr(Prop(item, "age"), "Unknown");
        var startDate := StrOr(Prop(item, "date_start"), "");
        var endDate := StrOr(Prop(item, "date_stop"), "");
        var key := ageGroup + "_" + startDate + "_" + endDate;
        if key !in seen {
          seen := seen[key := true];
          cleanedData := cleanedData + [item];
        }
      }
      i := i + 1;
    }
    return JArr(cleanedData);
  }

  /** The output of an array is an order-preserving subsequence of it, no longer than it,
      with every item that has no key still present in order and no key repeated. */
  lemma DedupeObjectsSpec(items: seq<Json>)
    ensures var out := DedupeObjects(JArr(items));
      && out.JArr?
      && |out.items| <= |items|
      && IsSubsequence(out.items, items)
      && Keyless(out.items, RowKey) == Keyless(items, RowKey)
      && DistinctKeys(out.items, RowKey)
  {
    if |items| > 0 {
      KeptIsSubsequence(items, RowKey, |items|);
      KeptKeepsKeyless(items, RowKey, |items|);
      KeptDistinct(items, RowKey, |items|);
      assert items[..|items|] == items;
    } else {
      assert IsSubsequence(items, items);
    }
  }

  /** Every key of the input survives, carried by the kept items (the first of each key wins). */
  lemma DedupeObjectsCoversKeys(items: seq<Json>, j: nat)
    requires j < |items| && RowKey(items[j]).Some?
    ensures exists y :: y in DedupeObjects(JArr(items)).items && RowKey(y) == RowKey(items[j])
  {
    KeptCoversKeys(items, RowKey, |items|, j);
  }

  /** Running the deduplicator on its own output changes nothing. */
  lemma DedupeObjectsIdempotent(data: Json)
    ensures DedupeObjects(DedupeObjects(data)) == DedupeObjects(data)
  {
    if data.JArr? && |data.items| > 0 {
      KeptIdempotent(data.items, RowKey);
    }
  }

  /** The key is plain string joining, so differently split fields can collide: of these two
      different rows only the first is kept. */
  lemma KeyCollision()
    ensures var a := JObj(map["age" := JStr("a_b"), "date_start" := JStr("c")]);
      var b := JObj(map["age" := JStr("a"), "date_start" := JStr("b_c")]);
      a != b && DedupeObjects(JArr([a, b])) == JArr([a])
  {
    var a := JObj(map["age" := JStr("a_b"), "date_start" := JStr("c")]);
    var b := JObj(map["age" := JStr("a"), "date_start" := JStr("b_c")]);
    assert a.fields["age"] != b.fields["age"];
    var xs := [a, b];
    assert xs[0] == a && xs[1] == b;
    assert "date_stop" !in a.fields && "date_stop" !in b.fields;
    assert StrOr(Prop(a, "age"), "Unknown") == "a_b" && StrOr(Prop(a, "date_start"), "") == "c";
    assert StrOr(Prop(b, "age"), "Unknown") == "a" && StrOr(Prop(b, "date_start"), "") == "b_c";
    assert RowKey(a) == Some("a_b" + "_" + "c" + "_" + "");
    assert RowKey(b) == Some("a" + "_" + "b_c" + "_" + "");
    assert "a_b" + "_" + "c" + "_" + "" == "a_b_c_" == "a" + "_" + "b_c" + "_" + "";
    assert RowKey(xs[0]) == RowKey(xs[1]);
    assert !FirstOfKey(xs, RowKey, 1);
    assert FirstOfKey(xs, RowKey, 0);
    assert Kept(xs, RowKey, 1) == [a];
    assert Kept(xs, RowKey, 2) == [a];
  }

  // ---------------------------------------------------------------------------------------
  // generateAndSendReport

  /** `reportData?.data || []`. */
  function RowsOf(reportData: Json): Json {
    var d := Prop(reportData, "data");
    if TruthyProp(d) then d.value else JArr([])
  }

  /** `{...reportData, data: cleaned}` for an object response; any other response contributes
      no properties. */
  function WithData(reportData: Json, cleaned: Json): (r: Json)
    ensures r.JObj? && "data" in r.fields && r.fields["data"] == cleaned
    ensures forall k :: k != "data" ==>
      && (k in r.fields <==> reportData.JObj? && k in reportData.fields)
      && (k in r.fields ==> r.fields[k] == reportData.fields[k])
  {
    if reportData.JObj? then JObj(reportData.fields["data" := cleaned]) else JObj(map["data" := cleaned])
  }

  function RunMetadata(now: string): Json {
    JObj(map["lastRun" := JStr(now), "lastError" := JNull])
  }

  function ErrorMetadata(msg: string): Json {
    JObj(map["lastError" := JStr(msg)])
  }

  /** The effect of one pipeline call: its outcome, the report it stores, the metadata the
      config ends with (None when no update succeeds) and the mail it hands over. */
  datatype RunEffect = RunEffect(outcome: Outcome, report: Option<GeneratedReport>, metadata: Option<Json>, mail: Option<Mail>)

  /** The catch block: record the error in the metadata, which fails when the config is gone. */
  function Failed(msg: string, present: bool, report: Option<GeneratedReport>): RunEffect {
    if present then RunEffect(Returned(false, Some(msg)), report, Some(ErrorMetadata(msg)), None)
    else RunEffect(Rejected(RecordNotFound), report, None, None)
  }

  /** The whole pipeline for `config`, given whether its row is in the store and the id the
      store will give the next report. */
  function Run(config: ReportConfig, present: bool, reportId: int, now: string,
               fetch: Request -> Result<Json, string>, summarize: Json -> Option<string>): RunEffect
  {
    match fetch(RequestFor(ParamsFor(config)))
    case Err(m) => Failed(m, present, None)
    case Ok(reportData) =>
      match Summarize(summarize, reportData)
      case Err(m) => Failed(m, present, None)
      case Ok(summary) =>
        if !present then Failed(ForeignKeyError, present, None)
        else
          var cleaned := DedupeObjects(RowsOf(reportData));
          var report := GeneratedReport(reportId, config.id, WithData(reportData, cleaned), summary,
                                        config.platform, config.dateRangeEnum);
          if WantsEmail(config.delivery, config.email) then
            match CreateReportEmail(config.email.value, config.platform, config.dateRangeEnum, cleaned,
                                    Some(summary), Some(reportId))
            case Err(m) => Failed(m, present, Some(report))
            case Ok(mail) => RunEffect(Returned(true, None), Some(report), Some(RunMetadata(now)), Some(mail))
          else RunEffect(Returned(true, None), Some(report), Some(RunMetadata(now)), None)
  }

  /** The catch block of lines 130-141. */
  method RecordFailure(db: Db, id: int, msg: string) returns (outcome: Outcome)
    requires db.Valid()
    modifies db
    ensures db.Valid()
    ensures var e := Failed(msg, id in old(db.configs), None);
      && outcome == e.outcome
      && db.configs == (if e.metadata.Some? then old(db.configs)[id := old(db.configs)[id].(metadata := e.metadata.value)] else old(db.configs))
    ensures db.reports == old(db.reports) && db.nextReportId == old(db.nextReportId)
  {
    var err := db.UpdateMetadata(id, ErrorMetadata(msg));
    if err.Some? {
      return Rejected(err.value);
    }
    return Returned(false, Some(msg));
  }

  /** `generateAndSendReport`, step by step. The mail returned is the one handed to
      `sendEmail`; whatever that call reports is only logged. */
  method GenerateAndSendReport(db: Db, config: ReportConfig, now: string,
                               fetch: Request -> Result<Json, string>, summarize: Json -> Option<string>)
    returns (outcome: Outcome, mail: Option<Mail>)
    requires db.Valid()
    modifies db
    ensures db.Valid()
    ensures var e := Run(config, config.id in old(db.configs), old(db.nextReportId), now, fetch, summarize);
      && outcome == e.outcome && mail == e.mail
      && db.reports == old(db.reports) + (if e.report.Some? then [e.report.value] else [])
      && db.configs == (if e.metadata.Some? then old(db.configs)[config.id := old(db.configs)[config.id].(metadata := e.metadata.value)]
                        else old(db.configs))
  {
    ghost var present := config.id in db.configs;
    ghost var e := Run(config, present, db.nextReportId, now, fetch, summarize);
    mail := None;
    var fetched := fetch(RequestFor(ParamsFor(config)));
    if fetched.Err? {
      assert e == Failed(fetched.error, present, None);
      outcome := RecordFailure(db, config.id, fetched.error);
      return;
    }
    var reportData := fetched.value;
    var summary := Summarize(summarize, reportData);
    if summary.Err? {
      assert e == Failed(summary.error, present, None);
      outcome := RecordFailure(db, config.id, summary.error);
      return;
    }

    var dataArray := RowsOf(reportData);
    var cleanedDataArray := RemoveDuplicateDataObjects(dataArray);
    var cleanedReportData := WithData(reportData, cleanedDataArray);

    var created := db.CreateReport(config.id, cleanedReportData, summary.value, config.platform, config.dateRangeEnum);
    if created.Err? {
      assert e == Failed(ForeignKeyError, present, None);
      outcome := RecordFailure(db, config.id, created.error);
      return;
    }
    var generatedReport := created.value;
    assert e.report == Some(generatedReport);

    var updated := db.UpdateMetadata(config.id, RunMetadata(now));
    if updated.Some? {
      assert false;
    }

    if WantsEmail(config.delivery, config.email) {
      var email := CreateReportEmail(config.email.value, config.platform, config.dateRangeEnum, cleanedDataArray,
                                     Some(summary.value), Some(generatedReport.id));
      if email.Err? {
        assert e == Failed(email.error, present, Some(generatedReport));
        outcome := RecordFailure(db, config.id, email.error);
        return;
      }
      mail := Some(email.value);
    }
    outcome := Returned(true, None);
  }

  // ---------------------------------------------------------------------------------------
  // Properties of the pipeline

  /** A failed fetch or summary stores nothing, replaces the metadata by `{lastError}` alone
      (dropping `lastRun`) and returns the message. */
  lemma FailureBeforePersisting(config: ReportConfig, reportId: int, now: string,
                                fetch: Request -> Result<Json, string>, summarize: Json -> Option<string>)
    requires fetch(RequestFor(ParamsFor(config))).Err?
             || Summarize(summarize, fetch(RequestFor(ParamsFor(config))).value).Err?
    ensures var e := Run(config, true, reportId, now, fetch, summarize);
      && e.report.None? && e.mail.None?
      && e.outcome.Returned? && !e.outcome.success && e.outcome.error.Some?
      && e.metadata == Some(ErrorMetadata(e.outcome.error.value))
      && "lastRun" !in e.metadata.value.fields
  {
  }

  /** A stored report carries the config's id, platform and range, the summary of the raw
      fetched data, and the fetched object with its `data` replaced by the deduplicated rows:
      every other property of the response is kept as it was. */
  lemma StoredReportShape(config: ReportConfig, present: bool, reportId: int, now: string,
                          fetch: Request -> Result<Json, string>, summarize: Json -> Option<string>)
    ensures var e := Run(config, present, reportId, now, fetch, summarize);
      e.report.Some? ==>
        var raw := fetch(RequestFor(ParamsFor(config))).value;
        && present
        && e.report.value.id == reportId && e.report.value.reportConfigId == config.id
        && e.report.value.platform == config.platform && e.report.value.dateRangeEnum == config.dateRangeEnum
        && Some(e.report.value.summary) == summarize(raw)
        && e.report.value.data.fields["data"] == DedupeObjects(RowsOf(raw))
        && (forall k :: k != "data" ==>
              && (k in e.report.value.data.fields <==> raw.JObj? && k in raw.fields)
              && (k in e.report.value.data.fields ==> e.report.value.data.fields[k] == raw.fields[k]))
  {
  }

  /** Mail goes out exactly for email delivery with a non-empty address once the report is
      stored and the analysis of the cleaned rows succeeds; it carries that analysis, and the
      call then succeeds whatever the send reports. Success always means a stored report and
      the metadata `{lastRun: now, lastError: null}`. Without mail a stored report means
      success, unless the email analysis threw, which leaves the report stored and records
      the error. */
  lemma MailAndSuccess(config: ReportConfig, present: bool, reportId: int, now: string,
                       fetch: Request -> Result<Json, string>, summarize: Json -> Option<string>)
    ensures var e := Run(config, present, reportId, now, fetch, summarize);
      && (e.outcome == Returned(true, None) ==> e.report.Some? && e.metadata == Some(RunMetadata(now)))
      && (e.mail.Some? ==> WantsEmail(config.delivery, config.email) && e.mail.value.to == config.email.value
                           && e.outcome == Returned(true, None) && e.report.Some?
                           && e.metadata == Some(RunMetadata(now)))
      && (e.report.Some? && !WantsEmail(config.delivery, config.email) ==> e.outcome == Returned(true, None))
      && (e.report.Some? && e.outcome != Returned(true, None) ==>
            WantsEmail(config.delivery, config.email) && e.metadata == Some(ErrorMetadata(e.outcome.error.value)))
    ensures var e := Run(config, present, reportId, now, fetch, summarize);
      e.report.Some? ==>
        var cleaned := DedupeObjects(RowsOf(fetch(RequestFor(ParamsFor(config))).value));
        && (e.mail.Some? <==> WantsEmail(config.delivery, config.email) && Analyze(cleaned).Ok?)
        && (e.mail.Some? ==> e.mail.value.analysis == Analyze(cleaned).value)
  {
  }

  /** A config whose row is gone makes the call reject: the report cannot be stored and the
      error cannot be recorded. */
  lemma MissingConfigRejects(config: ReportConfig, reportId: int, now: string,
                             fetch: Request -> Result<Json, string>, summarize: Json -> Option<string>)
    ensures var e := Run(config, false, reportId, now, fetch, summarize);
      e.outcome == Rejected(RecordNotFound) && e.report.None? && e.metadata.None?
  {
  }
}
