/** The request `fetchReportData` sends (src/lib/api-client.ts): a per-platform payload, its
    JSON body and the endpoint. The HTTP exchange itself is the caller's `fetch` parameter. */
module ApiClient {
  import opened Common
  import opened Json

  /** `ReportParams` as the two pipelines build it. The type declares no `dateRange` field
      and neither builder sets one. */
  datatype ReportParams = ReportParams(
    platform: string,
    metrics: seq<string>,
    level: string,
    dateRangeEnum: Option<string>,   // None is a database null
    cadence: string,
    delivery: string,
    email: Option<string>)           // None is undefined

  /** The date property of the payload: the custom branch copies `report.dateRange`, which is
      always undefined; the other branch copies `dateRangeEnum`. */
  datatype DateChoice = UndefinedRange | EnumValue(value: Option<string>)

  datatype Payload =
    | TikTokPayload(metrics: seq<string>, dimensions: seq<string>, level: string, reportType: string, date: DateChoice)
    | MetaPayload(metrics: seq<string>, level: string, breakdowns: seq<string>, timeIncrement: string, date: DateChoice)

  datatype Request = Request(url: string, body: Json)

  const SampleDataUrl := "https://bizdev.newform.ai/sample-data/"

  /** The payload of lines 8-31: the TikTok shape for `tiktok`, the Meta shape for any other platform. */
  function BuildPayload(p: ReportParams): (r: Payload)
    ensures r.TikTokPayload? <==> p.platform == "tiktok"
    ensures r.TikTokPayload? ==> r.dimensions == ["stat_time_day"] && r.reportType == "BASIC"
    ensures r.MetaPayload? ==> r.breakdowns == ["age"] && r.timeIncrement == "7"
    ensures r.metrics == p.metrics && r.level == p.level
    ensures r.date.EnumValue? <==> p.dateRangeEnum != Some("custom")
    ensures r.date.EnumValue? ==> r.date.value == p.dateRangeEnum
  {
    var date := if p.dateRangeEnum == Some("custom") then UndefinedRange else EnumValue(p.dateRangeEnum);
    if p.platform == "tiktok" then
      TikTokPayload(p.metrics, ["stat_time_day"], p.level, "BASIC", date)
    else
      MetaPayload(p.metrics, p.level, ["age"], "7", date)
  }

  /** The date property as `JSON.stringify` writes it: an undefined value leaves the key out,
      a null one is written as null. */
  function DateFields(d: DateChoice): map<string, Json> {
    match d
    case UndefinedRange => map[]
    case EnumValue(v) => map["dateRangeEnum" := if v.Some? then JStr(v.value) else JNull]
  }

  /** `JSON.stringify(apiPayload)`, as the JSON value it encodes. */
  function Serialize(pl: Payload): Json {
    match pl
    case TikTokPayload(metrics, dims, level, reportType, date) =>
      JObj(map["metrics" := JArr(Strings(metrics)), "dimensions" := JArr(Strings(dims)),
               "level" := JStr(level), "reportType" := JStr(reportType)] + DateFields(date))
    case MetaPayload(metrics, level, breakdowns, step, date) =>
      JObj(map["metrics" := JArr(Strings(metrics)), "level" := JStr(level),
               "breakdowns" := JArr(Strings(breakdowns)), "timeIncrement" := JStr(step)] + DateFields(date))
  }

  /** The POST the pipelines hand to `fetch`: the platform's sample-data URL and the body. */
  function RequestFor(p: ReportParams): (req: Request)
    ensures req.url == SampleDataUrl + p.platform
    ensures req.body == Serialize(BuildPayload(p))
  {
    Request(SampleDataUrl + p.platform, Serialize(BuildPayload(p)))
  }

  /** The keys of the body sent for each platform: the platform's own four keys, plus
      `dateRangeEnum` exactly when the range is not custom; `dateRange` is never sent. */
  lemma BodyKeys(p: ReportParams)
    ensures var body := RequestFor(p).body;
      && body.JObj?
      && "dateRange" !in body.fields
      && ("dateRangeEnum" in body.fields <==> p.dateRangeEnum != Some("custom"))
      && (p.platform == "tiktok" ==>
            body.fields.Keys - {"dateRangeEnum"} == {"metrics", "dimensions", "level", "reportType"})
      && (p.platform != "tiktok" ==>
            body.fields.Keys - {"dateRangeEnum"} == {"metrics", "level", "breakdowns", "timeIncrement"})
  {
    var pl := BuildPayload(p);
    var dk := DateFields(pl.date).Keys;
    assert dk <= {"dateRangeEnum"};
    assert ("dateRangeEnum" in dk) <==> p.dateRangeEnum != Some("custom");
  }

  /** The body carries the metrics list and the level unchanged, whatever the platform. */
  lemma BodyPassesThrough(p: ReportParams)
    ensures var body := RequestFor(p).body;
      && body.JObj?
      && body.fields["metrics"] == JArr(Strings(p.metrics))
      && body.fields["level"] == JStr(p.level)
  {
    var pl := BuildPayload(p);
    assert "metrics" !in DateFields(pl.date) && "level" !in DateFields(pl.date);
  }

  /** A custom range is requested with no date at all. */
  lemma CustomRangeSendsNoDate(p: ReportParams)
    requires p.dateRangeEnum == Some("custom")
    ensures var body := RequestFor(p).body;
      body.JObj? && "dateRange" !in body.fields && "dateRangeEnum" !in body.fields
  {
    BodyKeys(p);
  }
}
