/** The POST handler of src/app/api/reports/route.ts: destructure the parsed body, run the
    validation cascade (required fields, then the custom range, then the email), create the
    config row, and schedule it unless its cadence is `manual`. Every error thrown after
    validation, from the store or from the scheduler, becomes a 500 with one fixed message. */
module ReportsRoute {
  import opened Common
  import opened Json
  import opened Store
  import opened CronService
  import opened ReportForm

  const MissingFields := "Missing required fields"
  const CustomNeedsDates := "Custom date range requires from and to dates"
  const EmailRequired := "Email is required when delivery method is email"
  const CreateFailed := "Failed to create report configuration"
  const CreatedMessage := "Report configuration created and scheduled successfully"

  datatype ResponseBody =
    | Created(reportConfig: ReportConfig, message: string)
    | Failure(error: string)

  datatype Response = Response(status: int, body: ResponseBody)

  const ServerError := Response(500, Failure(CreateFailed))

  /** The six fields of line 16, all truthy. */
  predicate HasRequired(body: Json) {
    && TruthyProp(Prop(body, "platform"))
    && TruthyProp(Prop(body, "metrics"))
    && TruthyProp(Prop(body, "level"))
    && TruthyProp(Prop(body, "dateRange"))
    && TruthyProp(Prop(body, "cadence"))
    && TruthyProp(Prop(body, "delivery"))
  }

  /** `x === 'custom'`-style strict comparison of a property with a string. */
  predicate PropIs(body: Json, name: string, value: string) {
    Prop(body, name) == Some(JStr(value))
  }

  /** A truthy `customDateRange` with truthy `from` and `to`. */
  predicate HasCustomDates(body: Json) {
    var r := Prop(body, "customDateRange");
    TruthyProp(r) && TruthyProp(Prop(r.value, "from")) && TruthyProp(Prop(r.value, "to"))
  }

  /** The cascade of lines 16-35: the message of the first check that fails. */
  function Validate(body: Json): (err: Option<string>)
    ensures err.None? <==>
      && HasRequired(body)
      && (PropIs(body, "dateRange", "custom") ==> HasCustomDates(body))
      && (PropIs(body, "delivery", "email") ==> TruthyProp(Prop(body, "email")))
    ensures err == Some(MissingFields) <==> !HasRequired(body)
    ensures err == Some(CustomNeedsDates) <==>
      HasRequired(body) && PropIs(body, "dateRange", "custom") && !HasCustomDates(body)
    ensures err == Some(EmailRequired) <==>
      && HasRequired(body)
      && (PropIs(body, "dateRange", "custom") ==> HasCustomDates(body))
      && PropIs(body, "delivery", "email") && !TruthyProp(Prop(body, "email"))
  {
    if !HasRequired(body) then Some(MissingFields)
    else if PropIs(body, "dateRange", "custom") && !HasCustomDates(body) then Some(CustomNeedsDates)
    else if PropIs(body, "delivery", "email") && !TruthyProp(Prop(body, "email")) then Some(EmailRequired)
    else None
  }

  /** A string column's value: anything but a JSON string fails the store's type check. */
  function Text(p: Option<Json>): Option<string> {
    if p.Some? && p.value.JStr? then Some(p.value.s) else None
  }

  /** Line 41: an array is joined with commas, anything else is stored as it is. */
  function MetricsColumn(p: Option<Json>): Option<string> {
    if p.Some? && p.value.JArr? then Some(ToStr(p.value)) else Text(p)
  }

  /** The `data` of lines 39-51 for a validated body, or None when a value does not have the
      column's type (which the store rejects with an error). */
  function StoredInput(body: Json): (r: Option<ConfigInput>)
    requires Validate(body).None?
    ensures r.Some? <==>
      && Text(Prop(body, "platform")).Some? && MetricsColumn(Prop(body, "metrics")).Some?
      && Text(Prop(body, "level")).Some? && Text(Prop(body, "dateRange")).Some?
      && Text(Prop(body, "cadence")).Some? && Text(Prop(body, "delivery")).Some?
      && (PropIs(body, "delivery", "email") ==> Text(Prop(body, "email")).Some?)
    ensures r.Some? ==> (r.value.email.Some? <==> r.value.delivery == "email")
    ensures r.Some? && r.value.email.Some? ==> r.value.email.value != "" && Prop(body, "email") == Some(JStr(r.value.email.value))
    ensures r.Some? ==> (r.value.customDateFrom.Some? <==> r.value.dateRange == "custom")
    ensures r.Some? ==> (r.value.customDateTo.Some? <==> r.value.dateRange == "custom")
    ensures r.Some? ==> Prop(body, "cadence") == Some(JStr(r.value.cadence))
  {
    var platform := Text(Prop(body, "platform"));
    var metrics := MetricsColumn(Prop(body, "metrics"));
    var level := Text(Prop(body, "level"));
    var dateRange := Text(Prop(body, "dateRange"));
    var cadence := Text(Prop(body, "cadence"));
    var delivery := Text(Prop(body, "delivery"));
    var email := if PropIs(body, "delivery", "email") then Text(Prop(body, "email")) else None;
    if platform.None? || metrics.None? || level.None? || dateRange.None? || cadence.None? || delivery.None?
       || (PropIs(body, "delivery", "email") && email.None?)
    then None
    else
      var custom := dateRange.value == "custom";
      var range := Prop(body, "customDateRange");
      var from := if custom then Some(ToStr(Prop(range.value, "from").value)) else None;
      var to := if custom then Some(ToStr(Prop(range.value, "to").value)) else None;
      Some(ConfigInput(platform.value, metrics.value, level.value, dateRange.value, from, to,
                       cadence.value, delivery.value, email))
  }

  /** `POST /api/reports` on a parsed body. */
  method Post(db: Db, reg: Registry, body: Json) returns (resp: Response)
    requires db.Valid() && reg.Valid()
    modifies db, reg
    ensures db.Valid() && reg.Valid()
    ensures db.reports == old(db.reports)
    ensures body.JNull? ==> resp == ServerError
    ensures !body.JNull? && Validate(body).Some? ==> resp == Response(400, Failure(Validate(body).value))
    ensures !body.JNull? && Validate(body).None? && StoredInput(body).None? ==> resp == ServerError
    ensures body.JNull? || Validate(body).Some? || StoredInput(body).None? ==>
      db.configs == old(db.configs) && reg.keys == old(reg.keys) && reg.jobs == old(reg.jobs)
    ensures !body.JNull? && Validate(body).None? && StoredInput(body).Some? ==>
      var row := RowOf(old(db.nextConfigId), StoredInput(body).value);
      var expr := CronExpression(row.cadence);
      && row.id !in old(db.configs)
      && db.configs == old(db.configs)[row.id := row]
      && (forall k :: k != row.id ==> (k in reg.jobs <==> k in old(reg.jobs)))
      && (forall k :: k != row.id && k in reg.jobs ==> reg.jobs[k] == old(reg.jobs)[k])
      && (row.cadence == "manual" ==>
            resp == Response(200, Created(row, CreatedMessage)) && reg.keys == old(reg.keys) && reg.jobs == old(reg.jobs))
      && (row.cadence != "manual" && expr == "" ==> resp == ServerError && row.id !in reg.jobs)
      && (row.cadence != "manual" && expr != "" ==>
            && resp == Response(200, Created(row, CreatedMessage))
            && row.id in reg.jobs && reg.jobs[row.id] == Task(old(reg.issued), expr, "UTC", row)
            && reg.keys == RemoveKey(old(reg.keys), row.id) + [row.id])
  {
    if body.JNull? {
      return ServerError;
    }
    var err := Validate(body);
    if err.Some? {
      return Response(400, Failure(err.value));
    }
    var input := StoredInput(body);
    if input.None? {
      return ServerError;
    }
    var reportConfig := db.CreateConfig(input.value);
    if reportConfig.cadence != "manual" {
      var scheduleErr := reg.Schedule(db, reportConfig.id);
      if scheduleErr.Some? {
        return ServerError;
      }
    }
    return Response(200, Created(reportConfig, CreatedMessage));
  }

  /** Every submission of the form is rejected with 400 "Missing required fields" and stores
      nothing: the form posts `dateRangeEnum`, the route reads `dateRange`. */
  lemma FormSubmissionRejected(v: FormValues)
    ensures Validate(FormBody(v)) == Some(MissingFields)
  {
    assert Prop(FormBody(v), "dateRange").None?;
  }

  /** Metric names without commas, joined by the route and split by the pipeline, come back
      as they were posted. */
  lemma MetricsRoundTrip(metrics: seq<string>)
    requires |metrics| >= 1
    requires forall i :: 0 <= i < |metrics| ==> ',' !in metrics[i]
    ensures MetricsColumn(Some(JArr(Strings(metrics)))) == Some(Join(metrics, ','))
    ensures Split(Join(metrics, ','), ',') == metrics
  {
    var items := Strings(metrics);
    var printed := seq(|items|, i requires 0 <= i < |items| => if items[i].JNull? then "" else ToStr(items[i]));
    assert printed == metrics;
    SplitJoin(metrics, ',');
  }

  /** A body that passes validation and has string columns is stored with the posted values,
      the email only for email delivery. */
  lemma StoredRow(body: Json, id: int)
    requires Validate(body).None? && StoredInput(body).Some?
    ensures var row := RowOf(id, StoredInput(body).value);
      && Prop(body, "platform") == Some(JStr(row.platform))
      && Prop(body, "level") == Some(JStr(row.level))
      && row.dateRange.Some? && Prop(body, "dateRange") == Some(JStr(row.dateRange.value))
      && row.dateRangeEnum.None?
      && (row.email.Some? <==> row.delivery == "email")
      && (row.customDateFrom.Some? <==> PropIs(body, "dateRange", "custom"))
  {
  }
}
