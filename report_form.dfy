/** The client-side form schema (`formSchema` in src/components/ReportConfigForm.tsx): the
    field constraints and the three `refine` rules, over already-typed form values. Zod's
    `.email()` check is a parameter; `new Date` on a `YYYY-MM-DD` string is read as the
    calendar day it names. The JSON the form's submit handler posts is `FormBody`. */
module ReportForm {
  import opened Common
  import opened Json
  import opened CronService

  const Platforms: set<string> := {"meta", "tiktok"}
  const DateRanges: set<string> := {"last7", "last14", "last30", "custom"}
  const Cadences: set<string> := {"manual", "hourly", "every12h", "daily", "every_minute"}
  const Deliveries: set<string> := {"email", "link"}

  datatype DateRange = DateRange(from: string, to: string)

  /** The form's values; None stands for an optional field left undefined. */
  datatype FormValues = FormValues(
    platform: string,
    metrics: seq<string>,
    level: string,
    dateRangeEnum: string,
    customDateRange: Option<DateRange>,
    cadence: string,
    delivery: string,
    email: Option<string>)

  /** The values the form starts from. */
  const DefaultValues := FormValues("meta", [], "", "last7", None, "manual", "email", Some(""))

  /** The pattern `^\d{4}-\d{2}-\d{2}$`. */
  predicate IsIsoDay(s: string) {
    && |s| == 10 && s[4] == '-' && s[7] == '-'
    && (forall i :: 0 <= i < 4 ==> IsDigit(s[i]))
    && IsDigit(s[5]) && IsDigit(s[6]) && IsDigit(s[8]) && IsDigit(s[9])
  }

  /** The year, month and day written in an ISO day. */
  function Year(s: string): nat
    requires IsIsoDay(s)
  {
    DigitValue(s[0]) * 1000 + DigitValue(s[1]) * 100 + DigitValue(s[2]) * 10 + DigitValue(s[3])
  }

  function Month(s: string): nat
    requires IsIsoDay(s)
  {
    DigitValue(s[5]) * 10 + DigitValue(s[6])
  }

  function Day(s: string): nat
    requires IsIsoDay(s)
  {
    DigitValue(s[8]) * 10 + DigitValue(s[9])
  }

  /** `new Date(a) <= new Date(b)` for two ISO days: the earlier year, then month, then day. */
  predicate NotAfter(a: string, b: string)
    requires IsIsoDay(a) && IsIsoDay(b)
  {
    Year(a) < Year(b) || (Year(a) == Year(b) && (Month(a) < Month(b) || (Month(a) == Month(b) && Day(a) <= Day(b))))
  }

  /** The field constraints of lines 62-72. */
  predicate FieldsValid(v: FormValues, isEmail: string -> bool) {
    && v.platform in Platforms
    && |v.metrics| >= 1
    && |v.level| >= 1
    && v.dateRangeEnum in DateRanges
    && (v.customDateRange.Some? ==> IsIsoDay(v.customDateRange.value.from) && IsIsoDay(v.customDateRange.value.to))
    && v.cadence in Cadences
    && v.delivery in Deliveries
    && (v.email.Some? ==> isEmail(v.email.value))
  }

  /** First refine: link delivery, or a truthy email. */
  predicate EmailRule(v: FormValues) {
    v.delivery == "link" || (v.email.Some? && v.email.value != "")
  }

  /** Second refine: a custom range needs the range object. */
  predicate CustomRule(v: FormValues) {
    v.dateRangeEnum != "custom" || v.customDateRange.Some?
  }

  /** Third refine: a custom range runs from a day to the same or a later one. Ends that are
      not ISO days already fail the field constraints, so the rule counts them as failing. */
  predicate OrderRule(v: FormValues) {
    v.dateRangeEnum == "custom" && v.customDateRange.Some? ==>
      var r := v.customDateRange.value;
      IsIsoDay(r.from) && IsIsoDay(r.to) && NotAfter(r.from, r.to)
  }

  predicate FormValid(v: FormValues, isEmail: string -> bool) {
    FieldsValid(v, isEmail) && EmailRule(v) && CustomRule(v) && OrderRule(v)
  }

  /** Email delivery needs a non-empty address that passes the email check. */
  lemma EmailDeliveryNeedsAddress(v: FormValues, isEmail: string -> bool)
    requires FormValid(v, isEmail) && v.delivery == "email"
    ensures v.email.Some? && v.email.value != "" && isEmail(v.email.value)
  {
  }

  /** Link delivery never needs an address: dropping the email keeps a valid form valid. */
  lemma LinkNeedsNoAddress(v: FormValues, isEmail: string -> bool)
    requires FormValid(v, isEmail) && v.delivery == "link"
    ensures FormValid(v.(email := None), isEmail)
  {
  }

  /** An address that is present but empty fails unless the email check accepts "", even
      with link delivery: the default `email: ""` must be cleared or filled in. */
  lemma EmptyAddressRejected(v: FormValues, isEmail: string -> bool)
    requires v.email == Some("") && !isEmail("")
    ensures !FormValid(v, isEmail)
  {
  }

  /** A custom range needs both ends, both ISO days, the first not after the second. */
  lemma CustomRangeShape(v: FormValues, isEmail: string -> bool)
    requires FormValid(v, isEmail) && v.dateRangeEnum == "custom"
    ensures v.customDateRange.Some?
    ensures IsIsoDay(v.customDateRange.value.from) && IsIsoDay(v.customDateRange.value.to)
    ensures NotAfter(v.customDateRange.value.from, v.customDateRange.value.to)
  {
  }

  /** The order rule never rejects a preset range, whatever range object comes with it. */
  lemma PresetPassesOrder(v: FormValues)
    requires v.dateRangeEnum != "custom"
    ensures OrderRule(v)
  {
  }

  /** The defaults are not submittable: no metric is selected and the level is empty. */
  lemma DefaultsIncomplete(isEmail: string -> bool)
    ensures !FormValid(DefaultValues, isEmail)
  {
  }

  /** Filling in metrics, a level and an address the email check accepts makes the defaults
      valid. */
  lemma DefaultsCompleted(isEmail: string -> bool, metrics: seq<string>, level: string, email: string)
    requires |metrics| >= 1 && |level| >= 1 && email != "" && isEmail(email)
    ensures FormValid(DefaultValues.(metrics := metrics, level := level, email := Some(email)), isEmail)
  {
    var v := DefaultValues.(metrics := metrics, level := level, email := Some(email));
    assert v.platform in Platforms && v.dateRangeEnum in DateRanges;
    assert v.cadence in Cadences && v.delivery in Deliveries;
  }

  /** The ISO-day order is the order of the days' numbers (year, month, day in positional
      weight), as the comparison of two dates is. */
  lemma {:induction false} NotAfterByNumber(a: string, b: string)
    requires IsIsoDay(a) && IsIsoDay(b)
    ensures NotAfter(a, b) <==> Year(a) * 10000 + Month(a) * 100 + Day(a) <= Year(b) * 10000 + Month(b) * 100 + Day(b)
  {
    var ka := Month(a) * 100 + Day(a);
    var kb := Month(b) * 100 + Day(b);
    assert 0 <= ka < 10000 && 0 <= kb < 10000;
    if Year(a) < Year(b) {
      assert Year(a) * 10000 + ka < (Year(a) + 1) * 10000 <= Year(b) * 10000 + kb;
    } else if Year(a) > Year(b) {
      assert Year(b) * 10000 + kb < (Year(b) + 1) * 10000 <= Year(a) * 10000 + ka;
    } else if Month(a) < Month(b) {
      assert Day(a) < 100;
      assert ka < (Month(a) + 1) * 100 <= kb;
    } else if Month(a) > Month(b) {
      assert Day(b) < 100;
      assert kb < (Month(b) + 1) * 100 <= ka;
    }
  }

  /** Every cadence the form offers except `manual` is meant to be scheduled, yet
      `every_minute` has no cron expression: the schedulable values are exactly the three
      the scheduler knows. */
  lemma FormCadenceSchedulable(v: FormValues, isEmail: string -> bool)
    requires FormValid(v, isEmail)
    ensures CronExpression(v.cadence) != "" <==> v.cadence in {"hourly", "every12h", "daily"}
  {
  }

  /** `JSON.stringify(formData)`: the form's fields under their own names; undefined
      optional fields are dropped. */
  function FormBody(v: FormValues): (body: Json)
    ensures body.JObj? && "dateRange" !in body.fields
    ensures "dateRangeEnum" in body.fields && body.fields["dateRangeEnum"] == JStr(v.dateRangeEnum)
    ensures "email" in body.fields <==> v.email.Some?
  {
    var required := map[
      "platform" := JStr(v.platform),
      "metrics" := JArr(Strings(v.metrics)),
      "level" := JStr(v.level),
      "dateRangeEnum" := JStr(v.dateRangeEnum),
      "cadence" := JStr(v.cadence),
      "delivery" := JStr(v.delivery)];
    var range := match v.customDateRange
      case Some(r) => map["customDateRange" := JObj(map["from" := JStr(r.from), "to" := JStr(r.to)])]
      case None => map[];
    var email := match v.email
      case Some(e) => map["email" := JStr(e)]
      case None => map[];
    JObj(required + range + email)
  }
}
