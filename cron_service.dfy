/** The scheduler (src/lib/cron-service.ts): cadence labels to cron expressions, the registry
    of scheduled tasks keyed by config id, and the older pipeline the scheduled tasks run,
    which fetches and mails but stores nothing. `cron.schedule` is modelled as issuing a fresh
    task handle; the timer that later fires a task is left to the caller (`Registry.Fire`). */
module CronService {
  import opened Common
  import opened Json
  import opened ApiClient
  import opened Store
  import opened SvgChart
  import opened Email

  /** `getCronExpression`: the four schedulable cadences, and "" for anything else. */
  function CronExpression(cadence: string): (expr: string)
    ensures expr != "" <==> cadence in {"test-minute", "hourly", "every12h", "daily"}
  {
    match cadence
    case "test-minute" => "* * * * *"
    case "hourly" => "0 * * * *"
    case "every12h" => "0 */12 * * *"
    case "daily" => "0 0 * * *"
    case _ => ""
  }

  /** Whether one cron field matches a value: `*`, a step (a star, a slash and n), or a number. */
  predicate FieldMatches(field: string, v: nat) {
    if field == "*" then true
    else if |field| > 2 && field[..2] == "*/" then
      match ParseInt(field[2..]) case Some(n) => n > 0 && v % n == 0 case None => false
    else ParseInt(field) == Some(v)
  }

  /** A five-field expression fires at minute `m` of hour `h` when its first two fields match
      (the day, month and weekday fields of the four expressions used are all `*`). */
  predicate FiresAt(expr: string, m: nat, h: nat) {
    var fields := Split(expr, ' ');
    |fields| == 5 && FieldMatches(fields[0], m) && FieldMatches(fields[1], h)
  }

  /** The five fields of a cron expression written out with single spaces. */
  lemma FiveFields(f0: string, f1: string)
    requires ' ' !in f0 && ' ' !in f1
    ensures Split(f0 + [' '] + (f1 + [' '] + "* * *"), ' ') == [f0, f1, "*", "*", "*"]
  {
    var star := "*";
    var s2 := star + [' '] + star;
    var s3 := star + [' '] + s2;
    assert s3 == "* * *";
    SplitPiece(star, ' ', star);
    SplitPiece(star, ' ', s2);
    SplitPiece(f1, ' ', s3);
    SplitPiece(f0, ' ', f1 + [' '] + s3);
  }

  /** The numbers in the four expressions read back as 0 and 12. */
  lemma FieldNumbers(v: nat)
    ensures FieldMatches("0", v) <==> v == 0
    ensures FieldMatches("*/12", v) <==> v % 12 == 0
  {
    ParseIntOfIntToString(0);
    ParseIntOfIntToString(12);
    assert IntToString(0) == "0";
    assert IntToString(12) == "12";
    assert "*/12"[2..] == "12";
    assert "*/12"[..2] == "*/";
  }

  /** `test-minute` fires every minute; `every_minute`, the form's name for it, and `manual`
      get no expression. */
  lemma EveryMinuteSchedule(m: nat, h: nat)
    ensures FiresAt(CronExpression("test-minute"), m, h)
    ensures CronExpression("every_minute") == "" && CronExpression("manual") == ""
  {
    FiveFields("*", "*");
    assert CronExpression("test-minute") == "*" + [' '] + ("*" + [' '] + "* * *");
  }

  /** `hourly` fires on the hour. */
  lemma HourlySchedule(m: nat, h: nat)
    ensures FiresAt(CronExpression("hourly"), m, h) <==> m == 0
  {
    FiveFields("0", "*");
    assert CronExpression("hourly") == "0" + [' '] + ("*" + [' '] + "* * *");
    FieldNumbers(m);
  }

  lemma TwelveStep(h: nat)
    requires h < 24
    ensures FieldMatches("*/12", h) <==> h == 0 || h == 12
  {
    FieldNumbers(h);
    if h < 12 {
      assert h % 12 == h;
    } else {
      assert h % 12 == h - 12;
    }
  }

  lemma Every12hFields()
    ensures Split(CronExpression("every12h"), ' ') == ["0", "*/12", "*", "*", "*"]
  {
    FiveFields("0", "*/12");
    assert CronExpression("every12h") == "0" + [' '] + ("*/12" + [' '] + "* * *");
  }

  lemma Every12hSchedule(m: nat, h: nat)
    requires h < 24
    ensures FiresAt(CronExpression("every12h"), m, h) <==> m == 0 && (h == 0 || h == 12)
  {
    Every12hFields();
    FieldNumbers(m);
    TwelveStep(h);
  }

  /** `daily` fires at midnight UTC. */
  lemma DailySchedule(m: nat, h: nat)
    ensures FiresAt(CronExpression("daily"), m, h) <==> m == 0 && h == 0
  {
    FiveFields("0", "0");
    assert CronExpression("daily") == "0" + [' '] + ("0" + [' '] + "* * *");
    FieldNumbers(m);
    FieldNumbers(h);
  }

  /** A scheduled task: its handle, expression, time zone and the config captured when it was
      scheduled, which is what every firing uses. */
  datatype Task = Task(handle: nat, expression: string, timezone: string, config: ReportConfig)

  datatype JobStatus = JobStatus(configId: int, isRunning: bool)

  /** The result the older pipeline returns. */
  datatype LocalResult = LocalResult(success: bool, error: Option<string>, mail: Option<Mail>)

  function NotFound(id: int): string {
    "Report config with ID " + IntToString(id) + " not found"
  }

  /** The parameters of lines 37-45: this pipeline takes the range from `dateRange`. */
  function LocalParams(config: ReportConfig): (p: ReportParams)
    ensures p.dateRangeEnum == config.dateRange
    ensures p.metrics == Split(config.metrics, ',')
  {
    ReportParams(config.platform, Split(config.metrics, ','), config.level, config.dateRange,
                 config.cadence, config.delivery,
                 if config.email.Some? && config.email.value != "" then config.email else None)
  }

  /** The older `generateAndSendReport` (lines 32-77): fetch, then mail the raw response when
      the config asks for mail. The mail's `dateRange` is passed under a key the email builder
      does not read, so it carries no range. */
  function LocalRun(config: ReportConfig, fetch: Request -> Result<Json, string>): (r: LocalResult)
    ensures r.mail.Some? ==> r.success && WantsEmail(config.delivery, config.email)
    ensures !r.success <==> r.error.Some?
    ensures fetch(RequestFor(LocalParams(config))).Err? ==> r == LocalResult(false, Some(fetch(RequestFor(LocalParams(config))).error), None)
  {
    match fetch(RequestFor(LocalParams(config)))
    case Err(m) => LocalResult(false, Some(m), None)
    case Ok(reportData) =>
      if WantsEmail(config.delivery, config.email) then
        match CreateReportEmail(config.email.value, config.platform, None, reportData, None, None)
        case Err(m) => LocalResult(false, Some(m), None)
        case Ok(mail) => LocalResult(true, None, Some(mail))
      else LocalResult(true, None, None)
  }

  /** Whatever `sendEmail` reports, the run that handed over a mail returns success: the
      outcome depends only on the fetch and the email analysis. */
  lemma LocalRunOutcome(config: ReportConfig, fetch: Request -> Result<Json, string>)
    ensures var req := RequestFor(LocalParams(config));
      var r := LocalRun(config, fetch);
      r.success <==> fetch(req).Ok? && (!WantsEmail(config.delivery, config.email) || Analyze(fetch(req).value).Ok?)
  {
  }

  /** `runReportNow`: a missing config is an error; otherwise the older pipeline runs on the
      stored config. The registry is not involved. */
  function RunReportNow(db: Db, id: int, fetch: Request -> Result<Json, string>): (r: Result<LocalResult, string>)
    reads db
    ensures r.Err? <==> id !in db.configs
    ensures r.Err? ==> r.error == NotFound(id)
  {
    if id !in db.configs then Err(NotFound(id)) else Ok(LocalRun(db.configs[id], fetch))
  }

  /** `Map.delete` on an ordered key list. */
  function RemoveKey(keys: seq<int>, id: int): (r: seq<int>)
    ensures forall k :: k in r <==> k in keys && k != id
    ensures id !in keys ==> r == keys
    decreases |keys|
  {
    if |keys| == 0 then []
    else if keys[0] == id then RemoveKey(keys[1..], id)
    else [keys[0]] + RemoveKey(keys[1..], id)
  }

  predicate DistinctIds(keys: seq<int>) {
    forall i, j :: 0 <= i < j < |keys| ==> keys[i] != keys[j]
  }

  lemma {:induction false} RemoveKeyDistinct(keys: seq<int>, id: int)
    requires DistinctIds(keys)
    ensures DistinctIds(RemoveKey(keys, id))
    decreases |keys|
  {
    if |keys| > 0 {
      assert DistinctIds(keys[1..]) by {
        forall i, j | 0 <= i < j < |keys[1..]| ensures keys[1..][i] != keys[1..][j] {
          assert keys[1..][i] == keys[i + 1] && keys[1..][j] == keys[j + 1];
        }
      }
      RemoveKeyDistinct(keys[1..], id);
      if keys[0] != id {
        var r := RemoveKey(keys, id);
        var rest := RemoveKey(keys[1..], id);
        forall j | 0 <= j < |keys[1..]| ensures keys[1..][j] != keys[0] {
          assert keys[1..][j] == keys[j + 1];
        }
        assert keys[0] !in rest;
        forall i, j | 0 <= i < j < |r| ensures r[i] != r[j] {
          assert r[j] == rest[j - 1];
          if i > 0 {
            assert r[i] == rest[i - 1];
          }
        }
      }
    }
  }

  /** The index of the first listed config that cannot be scheduled, or the list's length. */
  function FirstUnschedulable(configs: map<int, ReportConfig>, listed: seq<int>): (k: nat)
    requires forall i :: 0 <= i < |listed| ==> listed[i] in configs
    ensures k <= |listed|
    ensures forall i :: 0 <= i < k ==> CronExpression(configs[listed[i]].cadence) != ""
    ensures k < |listed| ==> CronExpression(configs[listed[k]].cadence) == ""
    decreases |listed|
  {
    if |listed| == 0 then 0
    else if CronExpression(configs[listed[0]].cadence) == "" then 0
    else 1 + FirstUnschedulable(configs, listed[1..])
  }

  /** The handles held in a job map. */
  ghost function Handles(jobs: map<int, Task>): set<nat> {
    set id | id in jobs :: jobs[id].handle
  }

  ghost predicate DistinctHandles(jobs: map<int, Task>) {
    forall a, b :: a in jobs && b in jobs && a != b ==> jobs[a].handle != jobs[b].handle
  }

  /** Removing a task removes exactly its handle. */
  lemma HandlesRemove(jobs: map<int, Task>, id: int)
    requires id in jobs && DistinctHandles(jobs)
    ensures Handles(jobs - {id}) == Handles(jobs) - {jobs[id].handle}
  {
    forall x | x in Handles(jobs) - {jobs[id].handle} ensures x in Handles(jobs - {id}) {
      var k :| k in jobs && jobs[k].handle == x;
      assert k != id && (jobs - {id})[k] == jobs[k];
    }
  }

  /** Adding a task under a new key adds exactly its handle. */
  lemma HandlesAdd(jobs: map<int, Task>, id: int, t: Task)
    requires id !in jobs
    ensures Handles(jobs[id := t]) == Handles(jobs) + {t.handle}
  {
    forall x | x in Handles(jobs[id := t]) ensures x in Handles(jobs) + {t.handle} {
      var k :| k in jobs[id := t] && jobs[id := t][k].handle == x;
      if k != id {
        assert jobs[k].handle == x;
      }
    }
    forall x | x in Handles(jobs) ensures x in Handles(jobs[id := t]) {
      var k :| k in jobs && jobs[k].handle == x;
      assert jobs[id := t][k] == jobs[k];
    }
    assert t.handle in Handles(jobs[id := t]) by {
      assert jobs[id := t][id] == t;
    }
  }

  /** The registry's invariant over its parts: the key order lists each key of the map once;
      tasks in the map have distinct handles; and every task ever issued is either in the map
      or stopped, never both, so at most one task runs per config and none runs unreachable. */
  ghost predicate Consistent(keys: seq<int>, jobs: map<int, Task>, issued: nat, stopped: set<nat>) {
    && DistinctIds(keys)
    && (forall id :: id in jobs <==> id in keys)
    && DistinctHandles(jobs)
    && (forall h: nat :: h in Handles(jobs) <==> h < issued && h !in stopped)
    && (forall h :: h in stopped ==> h < issued)
  }

  /** Stopping and removing a task keeps the invariant. */
  lemma RemoveKeepsConsistent(keys: seq<int>, jobs: map<int, Task>, issued: nat, stopped: set<nat>, id: int)
    requires Consistent(keys, jobs, issued, stopped) && id in jobs
    ensures Consistent(RemoveKey(keys, id), jobs - {id}, issued, stopped + {jobs[id].handle})
  {
    RemoveKeyDistinct(keys, id);
    HandlesRemove(jobs, id);
  }

  /** Registering a fresh task under an absent key keeps the invariant. */
  lemma AddKeepsConsistent(keys: seq<int>, jobs: map<int, Task>, issued: nat, stopped: set<nat>, id: int, t: Task)
    requires Consistent(keys, jobs, issued, stopped) && id !in jobs && t.handle == issued
    ensures Consistent(keys + [id], jobs[id := t], issued + 1, stopped)
  {
    forall a | a in jobs ensures jobs[a].handle < issued {
      assert jobs[a].handle in Handles(jobs);
    }
    HandlesAdd(jobs, id, t);
  }

  /** The in-memory `activeJobs` map. `keys` keeps the map's insertion order; `stopped` holds
      the handles of every stopped job. */
  class Registry {
    var keys: seq<int>
    var jobs: map<int, Task>
    var issued: nat
    ghost var stopped: set<nat>

    ghost predicate Valid()
      reads this
    {
      Consistent(keys, jobs, issued, stopped)
    }

    constructor ()
      ensures Valid()
      ensures keys == [] && jobs == map[] && stopped == {}
    {
      keys := [];
      jobs := map[];
      issued := 0;
      stopped := {};
      new;
      assert Handles(jobs) == {};
    }

    /** `stopCronJob`: an absent id changes nothing; a present one is stopped and removed. */
    method Stop(id: int)
      requires Valid()
      modifies this
      ensures Valid()
      ensures issued == old(issued)
      ensures id !in old(jobs) ==> keys == old(keys) && jobs == old(jobs) && stopped == old(stopped)
      ensures id in old(jobs) ==> && jobs == old(jobs) - {id}
                                  && keys == RemoveKey(old(keys), id)
                                  && stopped == old(stopped) + {old(jobs)[id].handle}
    {
      if id in jobs {
        var h := jobs[id].handle;
        RemoveKeepsConsistent(keys, jobs, issued, stopped, id);
        stopped := stopped + {h};
        jobs := jobs - {id};
        keys := RemoveKey(keys, id);
      }
    }

    /** `scheduleCronJob`: look the config up (a missing one is an error and nothing changes),
        stop any task for the id, then leave a manual config unscheduled, reject a cadence
        without an expression, or register one fresh UTC task holding the config read. No
        other key is touched. */
    method Schedule(db: Db, configId: int) returns (err: Option<string>)
      requires Valid()
      modifies this
      ensures Valid()
      ensures configId !in db.configs ==>
        && err == Some(NotFound(configId))
        && keys == old(keys) && jobs == old(jobs) && issued == old(issued) && stopped == old(stopped)
      ensures configId in db.configs ==>
        var c := db.configs[configId];
        var expr := CronExpression(c.cadence);
        && (forall k :: k != configId ==> (k in jobs <==> k in old(jobs)))
        && (forall k :: k != configId && k in jobs ==> jobs[k] == old(jobs)[k])
        && stopped == old(stopped) + (if configId in old(jobs) then {old(jobs)[configId].handle} else {})
        && (c.cadence == "manual" ==> err.None? && configId !in jobs && keys == RemoveKey(old(keys), configId))
        && (c.cadence != "manual" && expr == "" ==>
              err == Some("Invalid cadence: " + c.cadence) && configId !in jobs && keys == RemoveKey(old(keys), configId))
        && (c.cadence != "manual" && expr != "" ==>
              && err.None?
              && configId in jobs && jobs[configId] == Task(old(issued), expr, "UTC", c)
              && keys == RemoveKey(old(keys), configId) + [configId])
    {
      var config := db.Find(configId);
      if config.None? {
        return Some(NotFound(configId));
      }
      var c := config.value;
      Stop(configId);
      if c.cadence == "manual" {
        return None;
      }
      var cronExpression := CronExpression(c.cadence);
      if cronExpression == "" {
        return Some("Invalid cadence: " + c.cadence);
      }
      var task := Task(issued, cronExpression, "UTC", c);
      AddKeepsConsistent(keys, jobs, issued, stopped, configId, task);
      issued := issued + 1;
      jobs := jobs[configId := task];
      keys := keys + [configId];
      err := None;
    }

    /** `getCronJobsStatus`: one running entry per key, in the map's order. */
    function Status(): (r: seq<JobStatus>)
      reads this
      ensures |r| == |keys|
      ensures forall i :: 0 <= i < |r| ==> r[i] == JobStatus(keys[i], true)
    {
      var ks := keys;
      seq(|ks|, i requires 0 <= i < |ks| => JobStatus(ks[i], true))
    }

    /** A scheduled task firing: the older pipeline on the config the task holds. */
    function Fire(id: int, fetch: Request -> Result<Json, string>): (r: LocalResult)
      reads this
      requires id in jobs
      ensures r == LocalRun(jobs[id].config, fetch)
    {
      LocalRun(jobs[id].config, fetch)
    }

    /** `initializeCronJobs`: schedule the listed configs (the non-manual ones, in the order the
        store returns them) until the first one that fails; that error is swallowed. */
    method Initialize(db: Db, listed: seq<int>) returns (scheduled: nat)
      requires Valid()
      requires forall i :: 0 <= i < |listed| ==> listed[i] in db.configs && db.configs[listed[i]].cadence != "manual"
      requires forall id :: id in db.configs && db.configs[id].cadence != "manual" ==> id in listed
      requires forall i, j :: 0 <= i < j < |listed| ==> listed[i] != listed[j]
      modifies this
      ensures Valid()
      ensures scheduled == FirstUnschedulable(db.configs, listed)
      ensures forall i :: 0 <= i < scheduled ==>
        listed[i] in jobs && jobs[listed[i]].config == db.configs[listed[i]]
        && jobs[listed[i]].expression == CronExpression(db.configs[listed[i]].cadence)
      ensures scheduled < |listed| ==> listed[scheduled] !in jobs
      ensures forall i :: scheduled < i < |listed| ==>
        (listed[i] in jobs <==> listed[i] in old(jobs)) && (listed[i] in jobs ==> jobs[listed[i]] == old(jobs)[listed[i]])
      ensures forall id :: id in old(jobs) && id !in listed ==> id in jobs && jobs[id] == old(jobs)[id]
      ensures forall id :: id in jobs ==> id in old(jobs) || id in listed
    {
      var i := 0;
      while i < |listed|
        invariant 0 <= i <= |listed|
        invariant Valid()
        invariant forall j :: 0 <= j < i ==> CronExpression(db.configs[listed[j]].cadence) != ""
        invariant forall j :: 0 <= j < i ==>
          listed[j] in jobs && jobs[listed[j]].config == db.configs[listed[j]]
          && jobs[listed[j]].expression == CronExpression(db.configs[listed[j]].cadence)
        invariant forall j :: i <= j < |listed| ==>
          (listed[j] in jobs <==> listed[j] in old(jobs)) && (listed[j] in jobs ==> jobs[listed[j]] == old(jobs)[listed[j]])
        invariant forall id :: id in old(jobs) && id !in listed ==> id in jobs && jobs[id] == old(jobs)[id]
        invariant forall id :: id in jobs ==> id in old(jobs) || id in listed
      {
        var id := listed[i];
        var c := db.configs[id];
        ghost var before := jobs;
        var err := Schedule(db, id);
        if CronExpression(c.cadence) == "" {
          FirstUnschedulableAt(db.configs, listed, i);
          return i;
        }
        forall j | 0 <= j < i + 1
          ensures listed[j] in jobs && jobs[listed[j]].config == db.configs[listed[j]]
          ensures jobs[listed[j]].expression == CronExpression(db.configs[listed[j]].cadence)
        {
          if j < i {
            assert listed[j] != id;
            assert jobs[listed[j]] == before[listed[j]];
          }
        }
        i := i + 1;
      }
      FirstUnschedulableAll(db.configs, listed);
      return i;
    }
  }

  lemma {:induction false} FirstUnschedulableAt(configs: map<int, ReportConfig>, listed: seq<int>, k: nat)
    requires forall i :: 0 <= i < |listed| ==> listed[i] in configs
    requires k < |listed| && CronExpression(configs[listed[k]].cadence) == ""
    requires forall j :: 0 <= j < k ==> CronExpression(configs[listed[j]].cadence) != ""
    ensures FirstUnschedulable(configs, listed) == k
  {
    var f := FirstUnschedulable(configs, listed);
    if f < k {
    } else if f > k {
    }
  }

  lemma FirstUnschedulableAll(configs: map<int, ReportConfig>, listed: seq<int>)
    requires forall i :: 0 <= i < |listed| ==> listed[i] in configs
    requires forall j :: 0 <= j < |listed| ==> CronExpression(configs[listed[j]].cadence) != ""
    ensures FirstUnschedulable(configs, listed) == |listed|
  {
  }

  /** The status list names every registered config exactly once and nothing else. */
  lemma StatusMatchesRegistry(r: Registry)
    requires r.Valid()
    ensures var s := r.Status();
      && (forall id :: id in r.jobs <==> exists i :: 0 <= i < |s| && s[i].configId == id)
      && (forall i, j :: 0 <= i < j < |s| ==> s[i].configId != s[j].configId)
      && (forall i :: 0 <= i < |s| ==> s[i].isRunning)
  {
    var s := r.Status();
    forall id | id in r.jobs ensures exists i :: 0 <= i < |s| && s[i].configId == id {
      var i :| 0 <= i < |r.keys| && r.keys[i] == id;
      assert s[i].configId == id;
    }
  }

  /** A client of the registry: schedule two configs and stop the first; the status then
      lists the second alone, and the first's task is stopped. */
  method ScheduleTwoStopOne(db: Db, a: int, b: int, reg: Registry)
    requires reg.Valid() && reg.jobs == map[] && reg.keys == []
    requires a != b && a in db.configs && b in db.configs
    requires db.configs[a].cadence == "daily" && db.configs[b].cadence == "hourly"
    modifies reg
    ensures reg.Valid()
    ensures reg.Status() == [JobStatus(b, true)]
  {
    var e1 := reg.Schedule(db, a);
    var e2 := reg.Schedule(db, b);
    assert reg.keys == [a, b];
    reg.Stop(a);
    assert reg.keys == [b];
  }

  /** A client of the registry: schedule a config, then change its row in the store. The task
      keeps the row as it was read when it was scheduled, so a later firing runs on that
      snapshot and not on the store's current row. */
  method ScheduleThenEditRow(db: Db, reg: Registry, id: int, metadata: Json,
                             fetch: Request -> Result<Json, string>) returns (r: LocalResult)
    requires db.Valid() && reg.Valid()
    requires id in db.configs && CronExpression(db.configs[id].cadence) != ""
    requires db.configs[id].metadata != metadata
    modifies db, reg
    ensures id in db.configs && db.configs[id] == old(db.configs[id]).(metadata := metadata)
    ensures db.configs[id] != old(db.configs[id])
    ensures id in reg.jobs && reg.jobs[id].config == old(db.configs[id])
    ensures r == LocalRun(old(db.configs[id]), fetch)
  {
    var err := reg.Schedule(db, id);
    var updateErr := db.UpdateMetadata(id, metadata);
    r := reg.Fire(id, fetch);
  }
}
