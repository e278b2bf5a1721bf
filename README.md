# Ad-report scheduler: a Dafny model

This project models the reporting backend of a small Next.js application. The application
lets a user configure recurring advertising reports for the Meta or TikTok sample-data API,
and a report is either emailed or served through a public link.

The model covers:

- **Cron scheduling** (`CronService`, from `src/lib/cron-service.ts`):
  - the cadence-to-cron-expression table;
  - the in-memory registry of scheduled tasks keyed by config id, as a class with ordered
    keys, a task map and an invariant over task handles;
  - scheduling, stopping, start-up initialisation and the status listing;
  - the older fetch-and-mail pipeline that the scheduled tasks run.
- **The persisting report pipeline** (`ReportGeneration`, from `src/lib/report-config.ts`):
  - the request parameters;
  - the row deduplicator;
  - `generateAndSendReport`: fetch, summarise, deduplicate, store a generated report,
    record the run in the config's metadata and optionally hand a mail over.
- **Chart data and insights** (`SvgChart`, from `src/lib/svg-chart.ts`):
  - deduplication by age and dates;
  - the choice of the primary metric;
  - per-age-group sums, sorted in descending order and cut to six;
  - the insight lines, and the insight list HTML.
- **The fetch request** (`ApiClient`, from `src/lib/api-client.ts`): the platform payload
  and its URL.
- **Signed report links** (`SignedUrls`, from `src/lib/signed-urls.ts`): generation,
  verification, query parsing and the expiry text.
- **`formatCadence`** (`Utils`, from `src/lib/utils.ts`).
- **`POST /api/reports`** (`ReportsRoute`, from `src/app/api/reports/route.ts`): the
  validation cascade, the stored row, scheduling, and the 400 and 500 answers.
- **The form schema** (`ReportForm`, from `formSchema` in
  `src/components/ReportConfigForm.tsx`): the field constraints, the three refinements, the
  defaults and the JSON body the form posts.

Supporting modules:

- `Common`: Option and Result, decimal text, and split and join.
- `Json`: JSON values, JavaScript truthiness, property access and `String(x)`.
- `Dedupe`: one specification shared by both deduplicators: the first item of each key is
  kept, and items without a key are always kept.
- `Store`: the Prisma tables as a class `Db`.
- `Email`: what `createReportEmail` needs from the analysis.

Collaborators the model cannot see are function parameters:

- `fetch` of the sample-data API;
- the OpenAI summariser;
- HMAC-SHA256;
- the clock;
- zod's email check.

Where the code disagrees with its own design, the model follows the code:

- **The route and the form disagree on the date field.** The route reads `dateRange` from
  the body, but the form posts `dateRangeEnum`. So every submission of the form is rejected
  with 400 "Missing required fields" (`ReportsRoute.FormSubmissionRejected`).
- **The two pipelines read different date columns.** The route stores the range in the
  `dateRange` column, and the scheduler's pipeline reads that column. The persisting
  pipeline reads `dateRangeEnum`, which the route never fills in (`Store.RowOf`).
- **`every_minute` is never scheduled.** The form offers `every_minute`, but the scheduler
  only knows `test-minute`. A config posted with `every_minute` is stored, and then
  scheduling fails, so the route answers 500 with the row already stored
  (`CronService.EveryMinuteSchedule`, `ReportForm.FormCadenceSchedulable`,
  `ReportsRoute.Post`).
- **A failing email analysis still leaves a report.** The persisting pipeline builds the
  email after the report is stored, and that analysis can throw. The stored report then
  stays, the metadata is overwritten with the error, and the call reports failure
  (`ReportGeneration.MailAndSuccess`).

## Model

| member | source | states |
|---|---|---|
| `CronService.CronExpression` | src/lib/cron-service.ts:14-28 | a cadence gets a non-empty expression exactly when it is `test-minute`, `hourly`, `every12h` or `daily` |
| `CronService.EveryMinuteSchedule` | src/lib/cron-service.ts:16-17 | `test-minute` fires at every minute of every hour; `every_minute` and `manual` get no expression |
| `CronService.HourlySchedule` | src/lib/cron-service.ts:18-19 | the hourly expression fires exactly at minute 0 |
| `CronService.Every12hSchedule` | src/lib/cron-service.ts:20-21 | within a day, the twelve-hour expression fires exactly at 00:00 and 12:00 |
| `CronService.DailySchedule` | src/lib/cron-service.ts:22-23 | the daily expression fires exactly at midnight |
| `CronService.LocalParams` | src/lib/cron-service.ts:37-45 | the scheduler's pipeline takes its range from the `dateRange` column and splits the metrics on commas |
| `CronService.LocalRun` | src/lib/cron-service.ts:32-77 | a mail is handed over only on success and only when the config asks for mail; a failed fetch returns its message with no mail; failure is exactly the presence of an error |
| `CronService.LocalRunOutcome` | src/lib/cron-service.ts:46-76 | the run succeeds exactly when the fetch succeeds and, when mail is wanted, the email analysis of the response succeeds, whatever the send reports |
| `CronService.RunReportNow` | src/lib/cron-service.ts:133-148 | a missing config is rejected with the not-found message; otherwise the older pipeline runs on it |
| `CronService.RemoveKey` | src/lib/cron-service.ts:127 | deleting a key from the map's order keeps exactly the other keys, and changes nothing when the key is absent |
| `CronService.RemoveKeyDistinct` | src/lib/cron-service.ts:127 | deleting a key keeps the key order free of repeats |
| `CronService.RemoveKeepsConsistent` | src/lib/cron-service.ts:123-130 | stopping and removing a task keeps the registry invariant: one entry per key, distinct handles, every issued task either registered or stopped |
| `CronService.AddKeepsConsistent` | src/lib/cron-service.ts:105-112 | registering a freshly issued task under an absent key keeps the registry invariant |
| `CronService.Registry.constructor` | src/lib/cron-service.ts:11 | the registry starts empty, with nothing stopped, and satisfies the invariant |
| `CronService.Registry.Stop` | src/lib/cron-service.ts:123-130 | an absent id changes nothing; a present one is removed from the map and its order, and its task is marked stopped |
| `CronService.Registry.Schedule` | src/lib/cron-service.ts:80-120 | a missing config is an error that changes nothing; otherwise any old task for the id is stopped; then a manual config stays unscheduled, a cadence without an expression is an "Invalid cadence" error, and any other cadence gets one fresh UTC task holding the config, appended last in the order; other keys are untouched |
| `CronService.Registry.Status` | src/lib/cron-service.ts:172-179 | one running entry per registered id, in the map's insertion order |
| `CronService.Registry.Fire` | src/lib/cron-service.ts:105-107 | a firing task runs the older pipeline on the config the task holds, not on a fresh read of the store |
| `CronService.ScheduleThenEditRow` | src/lib/cron-service.ts:83-107 | after a config is scheduled and its row is then changed in the store, the task still holds the row as read at scheduling time, and firing it runs the pipeline on that snapshot |
| `CronService.Registry.Initialize` | src/lib/cron-service.ts:151-169 | the listed non-manual configs are scheduled in order, each with its config and expression, up to the first that cannot be; that one ends unscheduled, and every later listed config keeps exactly the task it had before (none on a fresh registry); the error is swallowed; unlisted tasks are kept, and no other id gains a task |
| `CronService.FirstUnschedulable` | src/lib/cron-service.ts:161-163 | the index where the initialisation loop stops: every earlier listed config has an expression and the one at the index has none |
| `CronService.FirstUnschedulableAt` | src/lib/cron-service.ts:161-168 | the first listed config without an expression is where initialisation stops |
| `CronService.FirstUnschedulableAll` | src/lib/cron-service.ts:161-165 | when every listed config has an expression, all of them are scheduled |
| `CronService.StatusMatchesRegistry` | src/lib/cron-service.ts:173-176 | the status lists every registered config exactly once, nothing else, and each as running |
| `CronService.ScheduleTwoStopOne` | tests/test-cron.ts:41-57 | after scheduling two configs and stopping the first, the status lists the second alone |
| `ReportGeneration.EmailOrUndefined` | src/lib/report-config.ts:21 | an empty address becomes undefined and any other address is kept |
| `ReportGeneration.ParamsFor` | src/lib/report-config.ts:14-22 | the request takes platform and level from the config, the range from `dateRangeEnum`, the metrics split on commas, and the address only when non-empty |
| `ReportGeneration.ParamsMetrics` | src/lib/report-config.ts:16 | the requested metrics are at least one, contain no comma, and join back to the stored text |
| `ReportGeneration.Summarize` | src/lib/report-config.ts:27 | the summary succeeds exactly when the summariser returns a non-empty text, and otherwise fails with one fixed message |
| `ReportGeneration.RemoveDuplicateDataObjects` | src/lib/report-config.ts:34-65 | the loop returns the deduplicated value: a non-array or empty array unchanged, otherwise the first item of each key plus every non-object item |
| `ReportGeneration.DedupeObjectsSpec` | src/lib/report-config.ts:42-61 | the output is an order-preserving subsequence of the input, no longer than it, keeping every non-object item in order and repeating no key |
| `ReportGeneration.DedupeObjectsCoversKeys` | src/lib/report-config.ts:56-60 | every key present in the input is still carried by some kept item |
| `ReportGeneration.DedupeObjectsIdempotent` | src/lib/report-config.ts:34-65 | deduplicating twice gives the same as once |
| `ReportGeneration.KeyCollision` | src/lib/report-config.ts:49-54 | two different rows whose fields concatenate to the same key collapse to the first |
| `ReportGeneration.WithData` | src/lib/report-config.ts:78 | the stored object carries the cleaned rows under `data`, and every other property of an object response unchanged; a non-object response contributes none |
| `ReportGeneration.RecordFailure` | src/lib/report-config.ts:130-141 | the failure metadata `{lastError}` replaces the old metadata when the config exists; otherwise the update rejects and nothing changes |
| `ReportGeneration.GenerateAndSendReport` | src/lib/report-config.ts:69-143 | the call's outcome, mail, stored reports and config metadata are those of the pipeline's specification `Run` |
| `ReportGeneration.FailureBeforePersisting` | src/lib/report-config.ts:130-141 | a failed fetch or summary stores no report and sends no mail; the call returns failure with the message, and the metadata becomes `{lastError}` with no `lastRun` |
| `ReportGeneration.StoredReportShape` | src/lib/report-config.ts:76-92 | a stored report has the next report id, the config's id, platform and range, and the summary of the raw data; its object is the response with `data` replaced by the deduplicated rows and every other property kept |
| `ReportGeneration.MailAndSuccess` | src/lib/report-config.ts:103-129 | success means a stored report and the metadata `{lastRun: now, lastError: null}`; once a report is stored, mail goes out exactly when the delivery is email with a non-empty address and the analysis of the cleaned rows succeeds, and it carries that analysis; the call then succeeds whatever the send reports; a stored report without mail means success; a stored report with a failed outcome means the email analysis threw and the error was recorded |
| `ReportGeneration.MissingConfigRejects` | src/lib/report-config.ts:137-140 | for a config whose row is gone the call rejects, storing no report and recording nothing |
| `SvgChart.RemoveDuplicateData` | src/lib/svg-chart.ts:57-82 | a null row makes the call throw; otherwise the result is the first row of each age-and-dates key, in input order |
| `SvgChart.RemoveDuplicateDataKeeps` | src/lib/svg-chart.ts:73-77 | rows with pairwise different keys are returned unchanged, and the output never repeats a key |
| `SvgChart.DifferentAgesBothKept` | src/lib/svg-chart.ts:66-71 | two rows with different ages are both kept |
| `SvgChart.LaterRepeatDropped` | src/lib/svg-chart.ts:74-77 | a later row with the same key is dropped even when its metrics differ |
| `SvgChart.ExtractMetricValueSources` | src/lib/svg-chart.ts:121-148 | a top-level numeric metric wins, a nested `metrics` value is used when the top level lacks it, and a point without it contributes 0 |
| `SvgChart.RoundTenths` | src/lib/svg-chart.ts:212 | the one-decimal percentage is the quotient rounded to the nearest tenth, ties up |
| `SvgChart.PrimaryMetricSpec` | src/lib/svg-chart.ts:170-189 | the primary metric is an available one; unless it is the `spend` default, it is the first in the list with a positive value in some row |
| `SvgChart.FirstPositiveSpec` | src/lib/svg-chart.ts:172-187 | the scan finds nothing exactly when no metric has a positive row; otherwise it finds the first metric that has one |
| `SvgChart.ScanPrimaryMetric` | src/lib/svg-chart.ts:170-189 | the nested loop picks the specified primary metric and its title, or throws on the first non-object row |
| `SvgChart.SumByAge` | src/lib/svg-chart.ts:191-197 | the reduce throws exactly when a row is not an object; otherwise it yields the per-age sums in insertion order and the total |
| `SvgChart.SumStep` | src/lib/svg-chart.ts:195-196 | one more row adds its value to its age group and to the total |
| `SvgChart.AddToGroupSpec` | src/lib/svg-chart.ts:195 | adding to a group changes only that group's sum, creates it when new, and keeps labels distinct |
| `SvgChart.GroupsSpec` | src/lib/svg-chart.ts:191-197 | the map has one entry per age present, no repeated label, and each entry's value is the sum of that age's rows |
| `SvgChart.GroupsTotal` | src/lib/svg-chart.ts:191-197 | the group values add up to the running total |
| `SvgChart.SortDescSpec` | src/lib/svg-chart.ts:200-201 | the sort is a permutation of the entries, values from largest to smallest, with the same labels |
| `SvgChart.TopShape` | src/lib/svg-chart.ts:200-202 | the kept groups are at most six, in descending order, with distinct ages |
| `SvgChart.TopEntries` | src/lib/svg-chart.ts:199-205 | each kept group is an age of the rows with its sum of the metric |
| `SvgChart.TopComplete` | src/lib/svg-chart.ts:200-202 | with at most six ages, every age is kept |
| `SvgChart.TopCount` | src/lib/svg-chart.ts:200-202 | six groups are kept when there are at least six ages, and all of them otherwise |
| `SvgChart.TopLargest` | src/lib/svg-chart.ts:200-202 | an age that is cut off sums to no more than any kept group |
| `SvgChart.ChartSpec` | src/lib/svg-chart.ts:199-232 | the chart has as many values as labels, exactly the smaller of six and the number of ages; labels are distinct ages of the rows; values are non-increasing sums of the primary metric per age; with at most six ages all appear, and any age left out sums to no more than every charted value |
| `SvgChart.InsightsSpec` | src/lib/svg-chart.ts:207-222 | the single no-data line appears exactly when there is no group or the total is not positive; otherwise there is a top-group line, plus a second line when a second group exists |
| `SvgChart.ProcessFailsOnPrimitives` | src/lib/svg-chart.ts:121-137 | processing throws exactly when some row is not an object |
| `SvgChart.ProcessCleanedData` | src/lib/svg-chart.ts:108-233 | the scan, reduce, sort, slice and insight pushes compute the specified analysis |
| `SvgChart.AnalyzeData` | src/lib/svg-chart.ts:84-106 | the method computes the specified analysis of an array, or of an object's `data` array |
| `SvgChart.AnalyzeWithoutData` | src/lib/svg-chart.ts:91-100 | a value without a non-empty `data` array gives no chart labels and the single "No data available for visualization" insight |
| `SvgChart.AnalyzeEmptyArray` | src/lib/svg-chart.ts:86-88 | an empty array is processed: no groups, the `spend` default title and the no-`spend`-data line |
| `SvgChart.ProcessEmpty` | src/lib/svg-chart.ts:117-118 | processing no rows keeps the default metric and title and reports no data |
| `SvgChart.SpendTitle` | src/lib/svg-chart.ts:118 | the default title is the one the title rule gives for `spend` |
| `SvgChart.CreateInsightsHTML` | src/lib/svg-chart.ts:301-317 | the insights HTML is empty exactly when there are no insights |
| `SvgChart.ListItemsAppend` | src/lib/svg-chart.ts:314 | each insight becomes its own list item, in order |
| `Dedupe.Kept` | src/lib/report-config.ts:56-60 | the kept items are never more than the items looked at |
| `Dedupe.KeptDistinct` | src/lib/svg-chart.ts:73-77 | no key is kept twice |
| `Dedupe.KeptCoversKeys` | src/lib/svg-chart.ts:74-76 | every key of the input is carried by a kept item |
| `Dedupe.KeptOfDistinct` | src/lib/svg-chart.ts:65-78 | an input without repeated keys is kept whole |
| `Dedupe.KeptKeepsKeyless` | src/lib/report-config.ts:43-46 | every item without a key is kept, in order |
| `Dedupe.KeptIsSubsequence` | src/lib/report-config.ts:42-61 | the output is a subsequence of the input |
| `Dedupe.KeptIdempotent` | src/lib/svg-chart.ts:57-82 | deduplicating a deduplicated list changes nothing |
| `ApiClient.BuildPayload` | src/lib/api-client.ts:8-31 | TikTok gets its shape with `stat_time_day` and `BASIC`; any other platform gets the Meta shape with the `age` breakdown and step `7`; metrics and level pass through; a range enum is sent exactly when it is not `custom` |
| `ApiClient.RequestFor` | src/lib/api-client.ts:33-40 | the request goes to the platform's sample-data URL with the serialised payload |
| `ApiClient.BodyKeys` | src/lib/api-client.ts:8-31 | the body has exactly the platform's keys, carries `dateRangeEnum` exactly for a non-custom range, and never carries `dateRange` |
| `ApiClient.BodyPassesThrough` | src/lib/api-client.ts:10-12 | the body's metrics and level are the requested ones |
| `ApiClient.CustomRangeSendsNoDate` | src/lib/api-client.ts:14-16 | a custom range sends no date field at all |
| `SignedUrls.SecretKey` | src/lib/signed-urls.ts:3 | the secret is the environment's when set and non-empty, else the fallback |
| `SignedUrls.GenerateFullSignedUrl` | src/lib/signed-urls.ts:37-41 | the signed path is prefixed with the given base URL, else the environment's, else the localhost default |
| `SignedUrls.VerifySignedUrl` | src/lib/signed-urls.ts:46-71 | a link is expired exactly when its parsed expiry is before now; it is valid exactly when not expired and the signature matches the HMAC of `id:expires`; never both |
| `SignedUrls.ParseSignedUrlParams` | src/lib/signed-urls.ts:76-88 | a missing or empty `expires` or `signature` gives no result; otherwise the result is the verification |
| `SignedUrls.CeilDiv` | src/lib/signed-urls.ts:97 | the rounded-up quotient |
| `SignedUrls.FormatExpirationCases` | src/lib/signed-urls.ts:93-107 | "Expires soon" exactly when no time is left; hours while at most 23 hours remain, singular for one; days after that, singular for one |
| `SignedUrls.GenerateThenVerify` | src/lib/signed-urls.ts:21-32 | a generated link verifies as valid and unexpired until its expiry, and its expiry parses back |
| `SignedUrls.GeneratedLinkExpires` | src/lib/signed-urls.ts:56-60 | after its expiry a generated link is expired and not valid |
| `Common.ParseInt` | src/lib/signed-urls.ts:49 | `parseInt` gives no number exactly when no digit follows the optional sign |
| `Common.ParseIntOfIntToString` | src/lib/signed-urls.ts:31 | the decimal expiry written into a link parses back to the same number |
| `Common.Split` | src/lib/report-config.ts:16 | splitting yields at least one piece and no piece contains the separator |
| `Common.JoinSplit` | src/lib/cron-service.ts:39 | joining the split pieces gives the text back |
| `Common.SplitJoin` | src/app/api/reports/route.ts:41 | splitting joined pieces without separators gives the pieces back |
| `Utils.FormatCadence` | src/lib/utils.ts:8-16 | the four known cadences get a label; any other string is shown as it is; no label is itself a known cadence |
| `Utils.LabelsDistinct` | src/lib/utils.ts:10-13 | different known cadences get different labels |
| `Utils.FormatIdempotent` | src/lib/utils.ts:8-16 | formatting a formatted cadence changes nothing |
| `Utils.EveryMinuteShownRaw` | src/lib/utils.ts:14 | `every_minute` has no label and is shown raw |
| `Email.CreateReportEmail` | src/lib/email.ts:39-50 | building the mail fails exactly when the analysis of its data throws, with that message; otherwise it carries that analysis and the address |
| `Store.RowOf` | src/app/api/reports/route.ts:38-52 | a created row gets its id, no `dateRangeEnum` and empty metadata |
| `Store.Db.Find` | src/lib/cron-service.ts:83-85 | the lookup finds a row exactly when its id is stored |
| `Store.Db.CreateConfig` | src/app/api/reports/route.ts:38-52 | the new row gets a fresh id and is added, nothing else changes |
| `Store.Db.CreateReport` | src/lib/report-config.ts:81-92 | creating a report fails exactly when its config is gone; otherwise it is appended with the next id |
| `Store.Db.UpdateMetadata` | src/lib/report-config.ts:98-101 | updating fails exactly when the row is gone; otherwise only that row's metadata changes |
| `ReportForm.EmailDeliveryNeedsAddress` | src/components/ReportConfigForm.tsx:73-76 | a valid form with email delivery has a non-empty address that passes the email check |
| `ReportForm.LinkNeedsNoAddress` | src/components/ReportConfigForm.tsx:74 | with link delivery, dropping the address keeps a valid form valid |
| `ReportForm.EmptyAddressRejected` | src/components/ReportConfigForm.tsx:72 | an address present but empty fails unless the email check accepts "", whatever the delivery |
| `ReportForm.CustomRangeShape` | src/components/ReportConfigForm.tsx:65-87 | a valid custom range has both ends, both `YYYY-MM-DD`, the first not after the second |
| `ReportForm.PresetPassesOrder` | src/components/ReportConfigForm.tsx:79-85 | the order rule never rejects a preset range |
| `ReportForm.NotAfterByNumber` | src/components/ReportConfigForm.tsx:82 | comparing two days by year, then month, then day is comparing their numbers |
| `ReportForm.DefaultsIncomplete` | src/components/ReportConfigForm.tsx:101-110 | the default values are not submittable |
| `ReportForm.DefaultsCompleted` | src/components/ReportConfigForm.tsx:101-110 | the defaults with metrics, a level and an accepted address filled in are valid |
| `ReportForm.FormCadenceSchedulable` | src/components/ReportConfigForm.tsx:70 | among valid cadences, exactly `hourly`, `every12h` and `daily` have a cron expression |
| `ReportForm.FormBody` | src/hooks/use-reports.tsx:43 | the posted body is an object with `dateRangeEnum` and without `dateRange`, and has `email` exactly when the form has one |
| `ReportsRoute.Validate` | src/app/api/reports/route.ts:16-35 | a body passes exactly when the six fields are truthy, a custom range has both ends and email delivery has an address; each message is returned exactly when its check is the first to fail |
| `ReportsRoute.StoredInput` | src/app/api/reports/route.ts:38-52 | a validated body is storable exactly when each column has its type; the address is kept exactly for email delivery, non-empty; custom dates exactly for a custom range; the cadence is the posted one |
| `ReportsRoute.Post` | src/app/api/reports/route.ts:9-72 | a null body and type failures give 500, validation failures give 400 with their message, all changing nothing; otherwise the row is stored, a manual cadence answers 200, a cadence without an expression answers 500 with the row kept and unscheduled, and any other cadence answers 200 with a UTC task for the row, its id last in the registry's order |
| `ReportsRoute.FormSubmissionRejected` | src/app/api/reports/route.ts:13-21 | every body the form posts is rejected with "Missing required fields" |
| `ReportsRoute.MetricsRoundTrip` | src/app/api/reports/route.ts:41 | posted metrics without commas are joined on storing and split back to the same list by the pipeline |
| `ReportsRoute.StoredRow` | src/app/api/reports/route.ts:38-52 | a stored row carries the posted platform, level and range in `dateRange`, no `dateRangeEnum`, the address exactly for email delivery, and custom dates exactly for a custom range |

## Left out

- Numbers are integers. JavaScript doubles, fractional metric values and the binary rounding
  of `toFixed` are not modelled, and `parseFloat` and `parseInt` read only optionally signed
  decimal digits: leading whitespace, hexadecimal and exponent forms are left out.
- `createSVGChart`, the email HTML and subject, and all CSS are rendering only. A mail is
  represented by its address and the analysis it is built from.
- The network, the mailer, the OpenAI client and Prisma are I/O. Their results are
  parameters, and the exact texts of their errors are constants or left out.
  - `sendEmail` catches everything, so its result is not modelled.
  - A value of the wrong type for a column is a store error (500), without its message.
- Concurrency and timers are left out: `await` ordering, `cron.schedule`'s timer (a firing
  is `Registry.Fire`), and the start-up auto-initialisation at
  src/lib/cron-service.ts:181-188.
- `findMany`'s order is unspecified, so `Registry.Initialize` takes the listing as a
  parameter.
- Spread of a response that is not an object: such a response contributes no properties.
- `new Date(...)` parsing:
  - custom dates are stored as the posted value's text;
  - the form's date order compares the written year, month and day;
  - impossible calendar days are not rejected.
- zod's `.email()` check is a parameter.
- The GET handler of src/app/api/reports/route.ts and the other API routes are not part of
  this model. Failures of `request.json()` are not modelled: the body is a parsed value.
- `SignedUrls.GenerateSignedUrl` has no contract of its own. Its promise is the round trip
  stated by `SignedUrls.GenerateThenVerify`.
