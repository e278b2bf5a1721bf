/** The two Prisma tables the core touches, `reportConfig` and `generatedReport`, as an
    in-memory store with auto-incremented ids. Only the calls the core makes are modelled:
    create and find of a config, create of a report (which needs its config, as a foreign
    key does), and update of a config's metadata. */
module Store {
  import opened Common
  import opened Json

  /** A `reportConfig` row. Both `dateRange` (written by the POST route, read by the cron
      pipeline) and `dateRangeEnum` (read by the persisting pipeline) are kept, as the two
      halves of the source read different columns. None stands for a null column. */
  datatype ReportConfig = ReportConfig(
    id: int,
    platform: string,
    metrics: string,
    level: string,
    dateRange: Option<string>,
    dateRangeEnum: Option<string>,
    customDateFrom: Option<string>,
    customDateTo: Option<string>,
    cadence: string,
    delivery: string,
    email: Option<string>,
    metadata: Json)

  /** The columns supplied when a config is created (the id and metadata are the store's). */
  datatype ConfigInput = ConfigInput(
    platform: string,
    metrics: string,
    level: string,
    dateRange: string,
    customDateFrom: Option<string>,
    customDateTo: Option<string>,
    cadence: string,
    delivery: string,
    email: Option<string>)

  /** A `generatedReport` row. */
  datatype GeneratedReport = GeneratedReport(
    id: int,
    reportConfigId: int,
    data: Json,
    summary: string,
    platform: string,
    dateRangeEnum: Option<string>)

  const ForeignKeyError := "Foreign key constraint violated on the constraint: `GeneratedReport_reportConfigId_fkey`"
  const RecordNotFound := "Record to update not found."

  /** The row a config input becomes under a given id. */
  function RowOf(id: int, input: ConfigInput): (c: ReportConfig)
    ensures c.id == id && c.dateRangeEnum.None? && c.metadata == JNull
  {
    ReportConfig(id, input.platform, input.metrics, input.level, Some(input.dateRange), None,
                 input.customDateFrom, input.customDateTo, input.cadence, input.delivery, input.email, JNull)
  }

  class Db {
    var configs: map<int, ReportConfig>
    var reports: seq<GeneratedReport>
    var nextConfigId: int
    var nextReportId: int

    /** Ids are positive, below the next id to issue, and each row carries its own id; every
        report belongs to a config that existed when it was written. */
    ghost predicate Valid()
      reads this
    {
      && nextConfigId >= 1 && nextReportId >= 1
      && (forall id :: id in configs ==> 1 <= id < nextConfigId && configs[id].id == id)
      && (forall i :: 0 <= i < |reports| ==> 1 <= reports[i].id < nextReportId)
      && (forall i, j :: 0 <= i < j < |reports| ==> reports[i].id < reports[j].id)
    }

    constructor ()
      ensures Valid()
      ensures configs == map[] && reports == []
    {
      configs := map[];
      reports := [];
      nextConfigId := 1;
      nextReportId := 1;
    }

    /** `findUnique({where: {id}})`. */
    function Find(id: int): (c: Option<ReportConfig>)
      reads this
      ensures c.Some? <==> id in configs
      ensures c.Some? ==> c.value == configs[id]
    {
      if id in configs then Some(configs[id]) else None
    }

    /** `reportConfig.create`: a new row under a fresh id. */
    method CreateConfig(input: ConfigInput) returns (c: ReportConfig)
      requires Valid()
      modifies this
      ensures Valid()
      ensures c == RowOf(old(nextConfigId), input)
      ensures c.id !in old(configs)
      ensures configs == old(configs)[c.id := c]
      ensures reports == old(reports) && nextReportId == old(nextReportId)
    {
      c := RowOf(nextConfigId, input);
      configs := configs[c.id := c];
      nextConfigId := nextConfigId + 1;
    }

    /** `generatedReport.create`: fails when the config it points to is absent. */
    method CreateReport(configId: int, data: Json, summary: string, platform: string,
                        dateRangeEnum: Option<string>) returns (r: Result<GeneratedReport, string>)
      requires Valid()
      modifies this
      ensures Valid()
      ensures r.Err? <==> configId !in old(configs)
      ensures r.Err? ==> r.error == ForeignKeyError && reports == old(reports) && nextReportId == old(nextReportId)
      ensures r.Ok? ==> r.value == GeneratedReport(old(nextReportId), configId, data, summary, platform, dateRangeEnum)
      ensures r.Ok? ==> reports == old(reports) + [r.value]
      ensures configs == old(configs) && nextConfigId == old(nextConfigId)
    {
      if configId !in configs {
        return Err(ForeignKeyError);
      }
      var report := GeneratedReport(nextReportId, configId, data, summary, platform, dateRangeEnum);
      reports := reports + [report];
      nextReportId := nextReportId + 1;
      r := Ok(report);
    }

    /** `reportConfig.update({where: {id}, data: {metadata}})`: replaces the metadata
        wholesale; fails when the row is absent. */
    method UpdateMetadata(id: int, metadata: Json) returns (err: Option<string>)
      requires Valid()
      modifies this
      ensures Valid()
      ensures err.Some? <==> id !in old(configs)
      ensures err.Some? ==> err.value == RecordNotFound && configs == old(configs)
      ensures err.None? ==> configs == old(configs)[id := old(configs)[id].(metadata := metadata)]
      ensures reports == old(reports) && nextConfigId == old(nextConfigId) && nextReportId == old(nextReportId)
    {
      if id !in configs {
        return Some(RecordNotFound);
      }
      configs := configs[id := configs[id].(metadata := metadata)];
      err := None;
    }
  }
}
