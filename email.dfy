/** What the pipelines hand to the mailer (src/lib/email.ts). `createReportEmail` analyses the
    data it is given before rendering, so it throws whenever that analysis throws; the HTML it
    renders is represented by the fields it is built from. `sendEmail` catches every error and
    reports it in its result, which both pipelines only log. */
module Email {
  import opened Common
  import opened Json
  import opened SvgChart

  datatype Mail = Mail(
    to: string,
    platform: string,
    dateRangeEnum: Option<string>,
    summary: Option<string>,
    reportId: Option<int>,
    analysis: Analysis)

  /** `createReportEmail` addressed to `to`: fails with the analysis error, otherwise carries
      the analysis of `data`. */
  function CreateReportEmail(to: string, platform: string, dateRangeEnum: Option<string>, data: Json,
                             summary: Option<string>, reportId: Option<int>): (r: Result<Mail, string>)
    ensures r.Err? <==> Analyze(data).Err?
    ensures r.Err? ==> r.error == Analyze(data).error
    ensures r.Ok? ==> r.value.analysis == Analyze(data).value && r.value.to == to
  {
    match Analyze(data)
    case Err(m) => Err(m)
    case Ok(a) => Ok(Mail(to, platform, dateRangeEnum, summary, reportId, a))
  }

  /** Whether a config asks for mail: email delivery and a non-empty address. */
  predicate WantsEmail(delivery: string, email: Option<string>) {
    delivery == "email" && email.Some? && email.value != ""
  }
}
