/**
 * `CrawlerControlCenter`: which crawlers a configuration enables, how the
 * per-crawler statistics accumulate over runs, and when a run cycle asks
 * the drain to export and trim the queue.
 *
 * The crawlers themselves are not modelled: a run's outcome (the counts a
 * crawler reports, or that it raised) is a parameter.
 */
module ControlCenter {
  import opened Common
  import opened Records
  import opened Clock
  import opened Redis
  import opened Archives
  import opened DataExport

  // ------------------------------------------------------------ enabling crawlers

  /** A configuration's top-level sections: absent, `null`, or a mapping. */
  type Config = map<string, Option<map<string, Value>>>

  const CrawlerNames: set<string> := {"reddit", "newsapi", "rss", "stocktwits", "alphavantage"}

  /**
   * `is_enabled(section, default_if_present)`: a missing or null section is
   * off; an `enabled` key decides by its truthiness; otherwise reddit is on,
   * newsapi off, and any other section takes the default.
   */
  function IsEnabled(config: Config, section: string, defaultIfPresent: bool): (on: bool)
    ensures on ==> section in config && config[section].Some?
    ensures section in config && config[section].Some? && "enabled" in config[section].value ==>
      (on <==> Truthy(config[section].value["enabled"]))
    ensures section in config && config[section].Some? && "enabled" !in config[section].value ==>
      (on <==> section == "reddit" || (section != "newsapi" && defaultIfPresent))
  {
    if section !in config || config[section].None? then false
    else
      var conf := config[section].value;
      if "enabled" in conf then Truthy(conf["enabled"])
      else if section == "reddit" then true
      else if section == "newsapi" then false
      else defaultIfPresent
  }

  /** The crawlers `_init_crawlers` tries to build: every call passes the
      default `default_if_present = False`. */
  function EnabledCrawlers(config: Config): set<string>
  {
    set n | n in CrawlerNames && IsEnabled(config, n, false)
  }

  /** Without any `enabled` key, presence switches on reddit alone. */
  lemma OnlyRedditByPresence(config: Config)
    requires forall s :: s in config && config[s].Some? ==> "enabled" !in config[s].value
    ensures EnabledCrawlers(config) == if "reddit" in config && config["reddit"].Some? then {"reddit"} else {}
  {
    var e := EnabledCrawlers(config);
    forall n | n in e ensures n == "reddit" {
      assert IsEnabled(config, n, false);
    }
    if "reddit" in config && config["reddit"].Some? {
      assert IsEnabled(config, "reddit", false);
      assert "reddit" in e;
    }
  }

  /** Every crawler but reddit runs only when its section says `enabled`. */
  lemma OthersNeedExplicitEnable(config: Config, n: string)
    requires n in EnabledCrawlers(config) && n != "reddit"
    ensures n in config && config[n].Some? && "enabled" in config[n].value && Truthy(config[n].value["enabled"])
  {
  }

  // ------------------------------------------------------------ statistics

  /** The counters kept for each crawler. */
  function FieldSet(name: string): set<string>
  {
    match name
    case "reddit" => {"posts", "comments", "errors"}
    case "newsapi" => {"articles", "errors"}
    case "rss" => {"articles", "errors"}
    case "stocktwits" => {"messages", "errors"}
    case "alphavantage" => {"items", "errors"}
    case _ => {}
  }

  type Statistics = map<string, map<string, int>>

  /** One row per crawler, each with exactly that crawler's counters. */
  predicate WellFormed(st: Statistics)
  {
    st.Keys == CrawlerNames && forall n :: n in st ==> st[n].Keys == FieldSet(n)
  }

  /** Every counter starts at zero. */
  function InitialStatistics(): (st: Statistics)
    ensures WellFormed(st)
    ensures forall n, f :: n in st && f in st[n] ==> st[n][f] == 0
  {
    map n | n in CrawlerNames :: map f | f in FieldSet(n) :: 0
  }

  /** A run of `name` that reported `reported`: each of the crawler's
      counters grows by the reported value (0 when the key is missing). */
  function Accumulate(st: Statistics, name: string, reported: map<string, int>): (r: Statistics)
    requires name in st
    ensures r.Keys == st.Keys && r[name].Keys == st[name].Keys
    ensures forall n :: n in st && n != name ==> r[n] == st[n]
    ensures forall f :: f in st[name] ==> r[name][f] == st[name][f] + Get(reported, f)
  {
    st[name := Raised(st[name], reported)]
  }

  lemma AccumulateWellFormed(st: Statistics, name: string, reported: map<string, int>)
    requires WellFormed(st) && name in st
    ensures WellFormed(Accumulate(st, name, reported))
  {
    var r := Accumulate(st, name, reported);
    forall n | n in r ensures r[n].Keys == FieldSet(n) {
      if n != name { assert r[n] == st[n]; }
    }
  }

  /** One counter of one crawler raised by `amount`: `statistics[n][f] += amount`. */
  function AddTo(st: Statistics, name: string, field: string, amount: int): Statistics
    requires name in st && field in st[name]
  {
    st[name := st[name][field := st[name][field] + amount]]
  }

  /** Two runs of the same crawler add up like one run reporting the sums. */
  lemma AccumulateTwice(st: Statistics, name: string, a: map<string, int>, b: map<string, int>)
    requires name in st
    ensures Accumulate(Accumulate(st, name, a), name, b)
      == Accumulate(st, name, map k | k in a.Keys + b.Keys :: Get(a, k) + Get(b, k))
  {
    var ab := map k | k in a.Keys + b.Keys :: Get(a, k) + Get(b, k);
    var lhs, rhs := Accumulate(Accumulate(st, name, a), name, b), Accumulate(st, name, ab);
    assert lhs[name] == rhs[name] by {
      forall f | f in st[name] ensures lhs[name][f] == rhs[name][f] {
        assert Get(ab, f) == Get(a, f) + Get(b, f);
      }
    }
  }

  /** Runs of different crawlers can be taken in either order. */
  lemma AccumulateCommutes(st: Statistics, n1: string, a: map<string, int>, n2: string, b: map<string, int>)
    requires n1 in st && n2 in st && n1 != n2
    ensures Accumulate(Accumulate(st, n1, a), n2, b) == Accumulate(Accumulate(st, n2, b), n1, a)
  {
    var lhs, rhs := Accumulate(Accumulate(st, n1, a), n2, b), Accumulate(Accumulate(st, n2, b), n1, a);
    assert lhs[n1] == rhs[n1];
    assert lhs[n2] == rhs[n2];
  }

  /** A run that raises is counted as a run that reported one error, which
      is also what `run_crawler` returns for it. */
  lemma FailureCountsAsError(st: Statistics, name: string)
    requires name in st && st[name].Keys == FieldSet(name) && "errors" in FieldSet(name)
    ensures AddTo(st, name, "errors", 1) == Accumulate(st, name, map["errors" := 1])
  {
    var lhs, rhs := AddTo(st, name, "errors", 1), Accumulate(st, name, map["errors" := 1]);
    assert lhs[name] == rhs[name];
  }

  /** A row of counters after every field `f` was raised by `reported[f]`. */
  function Raised(row: map<string, int>, reported: map<string, int>): map<string, int>
  {
    map f | f in row :: row[f] + Get(reported, f)
  }

  /** Raising the three fields of a reddit row one by one. */
  lemma RaiseThree(row: map<string, int>, stats: map<string, int>)
    requires row.Keys == {"posts", "comments", "errors"}
    ensures row["posts" := row["posts"] + Get(stats, "posts")]
               ["comments" := row["comments"] + Get(stats, "comments")]
               ["errors" := row["errors"] + Get(stats, "errors")]
      == Raised(row, stats)
  {
    var thrice := row["posts" := row["posts"] + Get(stats, "posts")]
                     ["comments" := row["comments"] + Get(stats, "comments")]
                     ["errors" := row["errors"] + Get(stats, "errors")];
    forall f | f in thrice ensures thrice[f] == Raised(row, stats)[f] {
      assert f == "posts" || f == "comments" || f == "errors";
    }
  }

  /** Raising the two fields of a row holding one counter and `errors`. */
  lemma RaiseTwo(row: map<string, int>, counter: string, stats: map<string, int>)
    requires row.Keys == {counter, "errors"} && counter != "errors"
    ensures row[counter := row[counter] + Get(stats, counter)]["errors" := row["errors"] + Get(stats, "errors")]
      == Raised(row, stats)
  {
    var twice := row[counter := row[counter] + Get(stats, counter)]["errors" := row["errors"] + Get(stats, "errors")];
    forall f | f in twice ensures twice[f] == Raised(row, stats)[f] {
      assert f == counter || f == "errors";
    }
  }

  /** The three updates of a reddit run are one `Accumulate`. */
  lemma RedditRun(st: Statistics, stats: map<string, int>)
    requires "reddit" in st && st["reddit"].Keys == {"posts", "comments", "errors"}
    ensures AddTo(AddTo(AddTo(st, "reddit", "posts", Get(stats, "posts")), "reddit", "comments", Get(stats, "comments")),
                  "reddit", "errors", Get(stats, "errors"))
      == Accumulate(st, "reddit", stats)
  {
    RaiseThree(st["reddit"], stats);
  }

  /** The two updates of any other crawler's run are one `Accumulate`. */
  lemma CounterAndErrorsRun(st: Statistics, name: string, counter: string, stats: map<string, int>)
    requires name in st && st[name].Keys == {counter, "errors"} && counter != "errors"
    ensures AddTo(AddTo(st, name, counter, Get(stats, counter)), name, "errors", Get(stats, "errors"))
      == Accumulate(st, name, stats)
  {
    RaiseTwo(st[name], counter, stats);
  }

  // ------------------------------------------------------------ the drain trigger

  /** `max_keep`, `queue_threshold` and `memory_threshold_mb` as `_export_data` reads them. */
  datatype DrainSettings = DrainSettings(maxKeep: int, queueThreshold: int, memoryThresholdMb: int)

  /** Unset values default to 10000, to `max_keep`, and to 0 (no memory trigger). */
  function Settings(maxKeep: Option<int>, queueThreshold: Option<int>, memoryThresholdMb: Option<int>): (s: DrainSettings)
    ensures s.maxKeep == if maxKeep.Some? then maxKeep.value else DefaultMaxKeep
    ensures s.queueThreshold == if queueThreshold.Some? then queueThreshold.value else s.maxKeep
    ensures s.memoryThresholdMb == if memoryThresholdMb.Some? then memoryThresholdMb.value else 0
  {
    var keep := if maxKeep.Some? then maxKeep.value else DefaultMaxKeep;
    DrainSettings(keep,
                  if queueThreshold.Some? then queueThreshold.value else keep,
                  if memoryThresholdMb.Some? then memoryThresholdMb.value else 0)
  }

  /** The drain runs when the queue is longer than both the threshold and
      `max_keep`, or a memory threshold is set and used memory reaches it. */
  predicate DrainRequested(s: DrainSettings, length: int, memoryBytes: int)
    ensures DrainRequested(s, length, memoryBytes) && !MemoryTrigger(s, memoryBytes) ==>
      length > s.maxKeep && length > s.queueThreshold
  {
    length > Max(s.queueThreshold, s.maxKeep) || MemoryTrigger(s, memoryBytes)
  }

  /** The memory trigger: armed by a positive threshold, fired once used memory reaches it. */
  predicate MemoryTrigger(s: DrainSettings, memoryBytes: int)
  {
    s.memoryThresholdMb > 0 && memoryBytes >= s.memoryThresholdMb * 1048576
  }

  /** With neither threshold configured the trigger is exactly "longer than
      `max_keep`", which is also when the drain has something to export. */
  lemma DefaultTrigger(maxKeep: Option<int>, length: int, memoryBytes: int)
    ensures var s := Settings(maxKeep, None, None);
      DrainRequested(s, length, memoryBytes) <==> length > s.maxKeep
  {
  }

  /**
   * A queue-depth trigger hands the drain work, and the drain it starts
   * loses nothing: on a well-formed queue it exports `length - max_keep`
   * records, at least one (every record when `max_keep` is negative),
   * keeps the newest `max_keep`, and the kept entries followed by the
   * exported records are the queue.
   */
  lemma DepthTriggerDrains(s: DrainSettings, q: seq<Entry>, batchSize: int)
    requires |q| > Max(s.queueThreshold, s.maxKeep) && batchSize > 0
    requires forall i :: 0 <= i < |q| ==> q[i].Encoded?
    ensures var recs := ExportRecords(q, true, |q| - s.maxKeep, batchSize);
      && recs.Ok? && |recs.value| == |q| - Max(0, s.maxKeep)
      && (s.maxKeep >= 0 ==> |recs.value| > 0)
      && KeepNewest(q, s.maxKeep) + EncodeAll(recs.value) == q
  {
    if s.maxKeep >= 0 {
      DrainSplitsQueue(q, s.maxKeep, batchSize);
    } else {
      var recs := ExportRecords(q, true, |q| - s.maxKeep, batchSize);
      assert !exists i :: Max(0, |q| - (|q| - s.maxKeep)) <= i < |q| && q[i].Garbage?;
      assert recs.Ok? && |recs.value| == |q|;
      assert q[0..] == q;
    }
  }

  // ------------------------------------------------------------ the control center

  /** The counter updates `run_crawler` makes for one crawler's reported
      counts, field by field as the source writes them. */
  method RecordRun(st: Statistics, name: string, stats: map<string, int>) returns (s: Statistics)
    requires name in CrawlerNames && name in st && st[name].Keys == FieldSet(name)
    ensures s == Accumulate(st, name, stats)
  {
    s := st;
    if name == "reddit" {
      RedditRun(st, stats);
      s := AddTo(s, "reddit", "posts", Get(stats, "posts"));
      s := AddTo(s, "reddit", "comments", Get(stats, "comments"));
      s := AddTo(s, "reddit", "errors", Get(stats, "errors"));
    } else if name == "newsapi" {
      CounterAndErrorsRun(st, "newsapi", "articles", stats);
      s := AddTo(s, "newsapi", "articles", Get(stats, "articles"));
      s := AddTo(s, "newsapi", "errors", Get(stats, "errors"));
    } else if name == "rss" {
      CounterAndErrorsRun(st, "rss", "articles", stats);
      s := AddTo(s, "rss", "articles", Get(stats, "articles"));
      s := AddTo(s, "rss", "errors", Get(stats, "errors"));
    } else if name == "stocktwits" {
      CounterAndErrorsRun(st, "stocktwits", "messages", stats);
      s := AddTo(s, "stocktwits", "messages", Get(stats, "messages"));
      s := AddTo(s, "stocktwits", "errors", Get(stats, "errors"));
    } else {
      assert name == "alphavantage";
      CounterAndErrorsRun(st, "alphavantage", "items", stats);
      s := AddTo(s, "alphavantage", "items", Get(stats, "items"));
      s := AddTo(s, "alphavantage", "errors", Get(stats, "errors"));
    }
  }

  class CrawlerControlCenter {
    const client: RedisClient
    /** The crawlers that were built. */
    const crawlers: set<string>
    var statistics: Statistics

    predicate Valid()
      reads this
    {
      crawlers <= CrawlerNames && WellFormed(statistics)
    }

    /** `__init__`: every enabled crawler whose constructor did not raise
        (those in `failedInit`) is available; statistics start at zero. */
    constructor (client: RedisClient, config: Config, failedInit: set<string>)
      ensures this.client == client
      ensures crawlers == EnabledCrawlers(config) - failedInit
      ensures statistics == InitialStatistics()
      ensures Valid()
    {
      this.client := client;
      crawlers := EnabledCrawlers(config) - failedInit;
      statistics := InitialStatistics();
    }

    /**
     * `run_crawler(name)`: an unknown or disabled name returns `{}` and
     * changes nothing. Otherwise the crawler's reported counts (`outcome`)
     * are returned and added to its statistics; a crawl that raises
     * (`outcome == None`) adds one error and returns `{'errors': 1}`.
     */
    method RunCrawler(name: string, outcome: Option<map<string, int>>) returns (r: map<string, int>)
      requires Valid()
      modifies this`statistics
      ensures Valid()
      ensures name !in crawlers ==> r == map[] && statistics == old(statistics)
      ensures name in crawlers ==>
        r == (if outcome.Some? then outcome.value else map["errors" := 1])
        && statistics == Accumulate(old(statistics), name, r)
    {
      if name !in crawlers { return map[]; }
      ghost var st := statistics;
      assert name in st && st[name].Keys == FieldSet(name);
      if outcome.None? {
        FailureCountsAsError(st, name);
        AccumulateWellFormed(st, name, map["errors" := 1]);
        statistics := AddTo(statistics, name, "errors", 1);
        return map["errors" := 1];
      }
      var stats := outcome.value;
      AccumulateWellFormed(st, name, stats);
      statistics := RecordRun(statistics, name, stats);
      r := stats;
    }

    /**
     * `_export_data`: read the settings, probe the queue length (and the
     * memory, whose reading is `memoryBytes`), and when the trigger fires
     * run `export_and_trim(max_keep)` with a fresh exporter on `dir`.
     * Whatever happens, the queue only ever loses its oldest entries, and
     * only after an export file was written.
     */
    method ExportData(settings: DrainSettings, memoryBytes: int, dir: ExportDir, configuredFormat: string,
                      hasPandas: bool, now: DateTime) returns (stats: Option<DrainStats>)
      requires ValidNow(now)
      modifies client`queue, client`counters, dir`files
      ensures var length := if client.online then |old(client.queue)| else -1;
        stats.Some? <==> DrainRequested(settings, length, memoryBytes)
      ensures stats.Some? ==>
        ExportedThenTrimmed(old(client.queue), old(client.counters), old(dir.files), client.online,
                            settings.maxKeep, 1000,
                            DrainTarget(NormalizeFormat(None, configuredFormat) == Parquet && hasPandas,
                                        dir.parquetWritable, dir.writable, now),
                            dir.path, stats.value, client.queue, client.counters, dir.files)
      ensures stats.None? ==>
        client.queue == old(client.queue) && client.counters == old(client.counters) && dir.files == old(dir.files)
      ensures |client.queue| <= |old(client.queue)| && client.queue == old(client.queue)[..|client.queue|]
      ensures |client.queue| < |old(client.queue)| ==>
        var target := DrainTarget(NormalizeFormat(None, configuredFormat) == Parquet && hasPandas,
                                  dir.parquetWritable, dir.writable, now);
        && stats.Some? && target.Some? && target.value.0 in dir.files
        && stats.value.file == Some(Join(dir.path, target.value.0))
        && var recs := ExportRecords(old(client.queue), client.online, |old(client.queue)| - settings.maxKeep, 1000);
           recs.Ok? && dir.files[target.value.0].records == recs.value
    {
      var length := client.GetQueueLength();
      if !DrainRequested(settings, length, memoryBytes) { return None; }
      var exporter := new DataExporter(client, dir, None, configuredFormat, hasPandas);
      var drained := exporter.ExportAndTrim(settings.maxKeep, 1000, now);
      stats := Some(drained);
    }
  }
}
