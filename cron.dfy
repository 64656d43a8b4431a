/**
  The cron handlers of internal/cron/cron.go. Each run reads a job's
  last-run timestamp from the platform's job table, enqueues worker tasks
  whose payload carries that timestamp, and advances the job's timestamp to
  the run's clock reading, so consecutive runs hand the workers contiguous
  time windows.
*/
module Cron {
  import opened Wrappers
  import opened Strings

  /** The worker endpoints the tasks are sent to (under the worker base URL). */
  datatype Endpoint = StatisticsAssets | StatisticsRedirects | Expire

  /** The statistics metrics; their names live in a package that is not part of this model. */
  datatype Metric = HourlyAssetMetric | HourlyRedirectMetric | DailyAssetMetric | DailyRedirectMetric

  /** A task on the platform's task queue: where it goes and its text payload. */
  datatype Task = Task(endpoint: Endpoint, payload: string)

  /** The platform's job timestamp table and its task queue. */
  datatype Platform = Platform(jobs: map<string, int>, tasks: seq<Task>)

  const HourlyStats := "HOURLY_STATS"
  const DailyStats := "DAILY_STATS"
  const AssetExpiration := "ASSET_EXPIRATION"

  /** GetJobTimestamp: a job's last-run time, 0 for a job that never ran. */
  function JobTimestamp(p: Platform, job: string): int {
    if job in p.jobs then p.jobs[job] else 0
  }

  /** The payload fmt.Sprintf("%s:%s:%d", metric, "-", last). */
  function StatsPayload(metric: string, last: int): (payload: string)
    ensures payload == Join([metric, "-", Decimal(last)], ':')
  {
    var fields := [metric, "-", Decimal(last)];
    assert fields[1..][1..] == [Decimal(last)];
    assert Join(fields[1..], ':') == "-" + [':'] + Decimal(last);
    metric + ":" + "-" + ":" + Decimal(last)
  }

  /** The timestamp a task's payload carries: its last ':'-separated field, in decimal. */
  function PayloadLast(payload: string): Option<int> {
    var fields := Split(payload, ':');
    ParseDecimal(fields[|fields| - 1])
  }

  /** A statistics payload splits into the metric, "-" and the timestamp, which reads back. */
  lemma StatsPayloadFields(metric: string, last: int)
    requires ':' !in metric
    ensures Split(StatsPayload(metric, last), ':') == [metric, "-", Decimal(last)]
    ensures PayloadLast(StatsPayload(metric, last)) == Some(last)
  {
    SplitJoin([metric, "-", Decimal(last)], ':');
    DecimalRoundTrip(last);
  }

  /** An expiry payload, fmt.Sprintf("%d", last), reads back as `last`. */
  lemma ExpirePayloadLast(last: int)
    ensures PayloadLast(Decimal(last)) == Some(last)
  {
    SplitWithoutSeparator(Decimal(last), ':');
    DecimalRoundTrip(last);
  }

  /**
    HourlyTasks at clock reading `now`: two statistics tasks, assets then
    redirects, for the window since HOURLY_STATS' previous value, which then
    becomes `now`. `name` gives each metric's name.
  */
  method HourlyTasks(p: Platform, now: int, name: Metric -> string) returns (p': Platform)
    ensures var last := JobTimestamp(p, HourlyStats);
      p'.tasks == p.tasks + [Task(StatisticsAssets, StatsPayload(name(HourlyAssetMetric), last)),
                             Task(StatisticsRedirects, StatsPayload(name(HourlyRedirectMetric), last))]
    ensures p'.jobs == p.jobs[HourlyStats := now]
    ensures JobTimestamp(p', HourlyStats) == now
    ensures JobTimestamp(p', DailyStats) == JobTimestamp(p, DailyStats)
    ensures JobTimestamp(p', AssetExpiration) == JobTimestamp(p, AssetExpiration)
  {
    var last := JobTimestamp(p, HourlyStats);
    var tasks := p.tasks;
    tasks := tasks + [Task(StatisticsAssets, StatsPayload(name(HourlyAssetMetric), last))];
    tasks := tasks + [Task(StatisticsRedirects, StatsPayload(name(HourlyRedirectMetric), last))];
    p' := Platform(p.jobs[HourlyStats := now], tasks);
  }

  /**
    DailyTasks at clock reading `now`: two statistics tasks for the window
    since DAILY_STATS' previous value, then an expiry task carrying
    ASSET_EXPIRATION's previous value; both timestamps become `now`.
  */
  method DailyTasks(p: Platform, now: int, name: Metric -> string) returns (p': Platform)
    ensures var last := JobTimestamp(p, DailyStats);
      p'.tasks == p.tasks + [Task(StatisticsAssets, StatsPayload(name(DailyAssetMetric), last)),
                             Task(StatisticsRedirects, StatsPayload(name(DailyRedirectMetric), last)),
                             Task(Expire, Decimal(JobTimestamp(p, AssetExpiration)))]
    ensures p'.jobs == p.jobs[DailyStats := now][AssetExpiration := now]
    ensures JobTimestamp(p', DailyStats) == now && JobTimestamp(p', AssetExpiration) == now
    ensures JobTimestamp(p', HourlyStats) == JobTimestamp(p, HourlyStats)
  {
    var jobs := p.jobs;
    var tasks := p.tasks;
    var last := JobTimestamp(p, DailyStats);
    tasks := tasks + [Task(StatisticsAssets, StatsPayload(name(DailyAssetMetric), last))];
    tasks := tasks + [Task(StatisticsRedirects, StatsPayload(name(DailyRedirectMetric), last))];
    jobs := jobs[DailyStats := now];
    last := JobTimestamp(Platform(jobs, tasks), AssetExpiration);
    tasks := tasks + [Task(Expire, Decimal(last))];
    jobs := jobs[AssetExpiration := now];
    p' := Platform(jobs, tasks);
  }

  /** The metric names the payloads are split on hold no ':'. */
  predicate PlainNames(name: Metric -> string) {
    ':' !in name(HourlyAssetMetric) && ':' !in name(HourlyRedirectMetric) &&
    ':' !in name(DailyAssetMetric) && ':' !in name(DailyRedirectMetric)
  }

  /**
    Two hourly runs hand out contiguous windows: the second run's tasks
    start where the first run was, and the first run's tasks start where
    the run before it was.
  */
  method ConsecutiveHourlyRuns(p: Platform, t1: int, t2: int, name: Metric -> string)
    returns (p'': Platform)
    requires PlainNames(name)
    ensures |p''.tasks| == |p.tasks| + 4
    ensures PayloadLast(p''.tasks[|p.tasks|].payload) == Some(JobTimestamp(p, HourlyStats))
    ensures PayloadLast(p''.tasks[|p.tasks| + 1].payload) == Some(JobTimestamp(p, HourlyStats))
    ensures PayloadLast(p''.tasks[|p.tasks| + 2].payload) == Some(t1)
    ensures PayloadLast(p''.tasks[|p.tasks| + 3].payload) == Some(t1)
    ensures JobTimestamp(p'', HourlyStats) == t2
  {
    var p' := HourlyTasks(p, t1, name);
    p'' := HourlyTasks(p', t2, name);
    StatsPayloadFields(name(HourlyAssetMetric), JobTimestamp(p, HourlyStats));
    StatsPayloadFields(name(HourlyRedirectMetric), JobTimestamp(p, HourlyStats));
    StatsPayloadFields(name(HourlyAssetMetric), t1);
    StatsPayloadFields(name(HourlyRedirectMetric), t1);
  }

  /**
    Two daily runs hand out contiguous windows for the statistics and for
    the expiry alike.
  */
  method ConsecutiveDailyRuns(p: Platform, t1: int, t2: int, name: Metric -> string)
    returns (p'': Platform)
    requires PlainNames(name)
    ensures |p''.tasks| == |p.tasks| + 6
    ensures PayloadLast(p''.tasks[|p.tasks|].payload) == Some(JobTimestamp(p, DailyStats))
    ensures PayloadLast(p''.tasks[|p.tasks| + 1].payload) == Some(JobTimestamp(p, DailyStats))
    ensures PayloadLast(p''.tasks[|p.tasks| + 2].payload) == Some(JobTimestamp(p, AssetExpiration))
    ensures PayloadLast(p''.tasks[|p.tasks| + 3].payload) == Some(t1)
    ensures PayloadLast(p''.tasks[|p.tasks| + 4].payload) == Some(t1)
    ensures PayloadLast(p''.tasks[|p.tasks| + 5].payload) == Some(t1)
    ensures JobTimestamp(p'', DailyStats) == t2 && JobTimestamp(p'', AssetExpiration) == t2
  {
    var p' := DailyTasks(p, t1, name);
    p'' := DailyTasks(p', t2, name);
    var n := |p.tasks|;
    DailyPayloadsLast(name, JobTimestamp(p, DailyStats), JobTimestamp(p, AssetExpiration));
    DailyPayloadsLast(name, t1, t1);
  }

  /** The timestamps carried by the three tasks of a daily run. */
  lemma DailyPayloadsLast(name: Metric -> string, last: int, expiry: int)
    requires PlainNames(name)
    ensures PayloadLast(StatsPayload(name(DailyAssetMetric), last)) == Some(last)
    ensures PayloadLast(StatsPayload(name(DailyRedirectMetric), last)) == Some(last)
    ensures PayloadLast(Decimal(expiry)) == Some(expiry)
  {
    StatsPayloadFields(name(DailyAssetMetric), last);
    StatsPayloadFields(name(DailyRedirectMetric), last);
    ExpirePayloadLast(expiry);
  }

  /** A daily run between two hourly runs does not break the hourly windows. */
  method HourlyDailyHourly(p: Platform, t1: int, t2: int, t3: int, name: Metric -> string)
    returns (p3: Platform)
    requires PlainNames(name)
    ensures |p3.tasks| == |p.tasks| + 7
    ensures PayloadLast(p3.tasks[|p.tasks| + 5].payload) == Some(t1)
    ensures PayloadLast(p3.tasks[|p.tasks| + 6].payload) == Some(t1)
    ensures JobTimestamp(p3, HourlyStats) == t3
    ensures JobTimestamp(p3, DailyStats) == t2
  {
    var p1 := HourlyTasks(p, t1, name);
    var p2 := DailyTasks(p1, t2, name);
    p3 := HourlyTasks(p2, t3, name);
    StatsPayloadFields(name(HourlyAssetMetric), t1);
    StatsPayloadFields(name(HourlyRedirectMetric), t1);
  }
}
