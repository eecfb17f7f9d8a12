/**
 * `SmartExporter`: the three-signal rule that decides when an automatic
 * export is due (queue depth, memory, time since the last export), the
 * export itself (how many entries, in which batches, under which name and
 * format), and the retention sweep over the export directory.
 *
 * The export reads its batches through `redis_client.get_data(count)`, a
 * call whose behaviour the client does not define; it is a parameter here
 * (`fetch(k, count)` is the reply to the `k`-th call, None when it raises).
 */
module SmartExport {
  import opened Common
  import opened Records
  import opened Clock
  import opened Redis
  import opened Archives

  /** The `auto_export` and `archive` settings. */
  datatype ExportConfig = ExportConfig(
    enabled: bool,
    queueThreshold: int,
    memoryThresholdMb: int,
    intervalMinutes: int,
    compress: bool,
    retentionDays: int,
    format: string,
    archiveEnabled: bool)

  /** `used_memory / 1024 / 1024` compares with a threshold in MB. */
  const BytesPerMb: int := 1048576

  // ------------------------------------------------------------ the trigger

  /** Why `should_export` answered as it did. */
  datatype Reason =
    | Disabled
    | QueueDeep(length: int)
    | MemoryHigh(bytes: int)
    | FirstRun
    | IntervalElapsed(seconds: int)
    | NotNeeded

  predicate Fires(r: Reason)
  {
    !(r.Disabled? || r.NotNeeded?)
  }

  /** The queue-depth signal: the probe answered and the queue is deeper than the threshold. */
  predicate QueueSignal(cfg: ExportConfig, length: Option<int>)
  {
    length.Some? && length.value > cfg.queueThreshold
  }

  /** The memory signal: the probe answered and more than the threshold is in use. */
  predicate MemorySignal(cfg: ExportConfig, memoryBytes: Option<int>)
  {
    memoryBytes.Some? && memoryBytes.value > cfg.memoryThresholdMb * BytesPerMb
  }

  /**
   * `should_export`: the first signal that fires, in the order queue depth,
   * memory, first run, elapsed interval. `length` and `memoryBytes` are the
   * probes' answers, None where the probe raised (the signal is then
   * skipped); `last` is `last_export_time`.
   */
  function Decide(cfg: ExportConfig, length: Option<int>, memoryBytes: Option<int>, last: Option<DateTime>, now: DateTime): (r: Reason)
    ensures Fires(r) <==>
      cfg.enabled &&
      (QueueSignal(cfg, length) || MemorySignal(cfg, memoryBytes) || last.None?
       || Seconds(now) - Seconds(last.value) >= cfg.intervalMinutes * 60)
    ensures r.Disabled? <==> !cfg.enabled
    ensures r.QueueDeep? <==> cfg.enabled && QueueSignal(cfg, length)
    ensures r.MemoryHigh? <==> cfg.enabled && !QueueSignal(cfg, length) && MemorySignal(cfg, memoryBytes)
    ensures r.FirstRun? <==>
      cfg.enabled && !QueueSignal(cfg, length) && !MemorySignal(cfg, memoryBytes) && last.None?
    ensures r.IntervalElapsed? <==>
      cfg.enabled && !QueueSignal(cfg, length) && !MemorySignal(cfg, memoryBytes) && last.Some?
      && Seconds(now) - Seconds(last.value) >= cfg.intervalMinutes * 60
    ensures r.QueueDeep? ==> r.length == length.value
    ensures r.MemoryHigh? ==> r.bytes == memoryBytes.value
    ensures r.IntervalElapsed? ==> r.seconds == Seconds(now) - Seconds(last.value)
  {
    if !cfg.enabled then Disabled
    else if QueueSignal(cfg, length) then QueueDeep(length.value)
    else if MemorySignal(cfg, memoryBytes) then MemoryHigh(memoryBytes.value)
    else if last.None? then FirstRun
    else if Seconds(now) - Seconds(last.value) >= cfg.intervalMinutes * 60 then IntervalElapsed(Seconds(now) - Seconds(last.value))
    else NotNeeded
  }

  /** A probe that raises decides the same as one that reports a value
      below its threshold: evaluation falls through to the next signal. */
  lemma FailedProbeFallsThrough(cfg: ExportConfig, length: int, memoryBytes: int, last: Option<DateTime>, now: DateTime)
    requires length <= cfg.queueThreshold && memoryBytes <= cfg.memoryThresholdMb * BytesPerMb
    ensures Decide(cfg, None, Some(memoryBytes), last, now) == Decide(cfg, Some(length), Some(memoryBytes), last, now)
    ensures Decide(cfg, Some(length), None, last, now) == Decide(cfg, Some(length), Some(memoryBytes), last, now)
  {
  }

  /** Right after an export, with quiet probes and a positive interval, no
      export is due; the first run always is. */
  lemma JustExportedNotDue(cfg: ExportConfig, length: Option<int>, memoryBytes: Option<int>, now: DateTime)
    requires cfg.enabled && cfg.intervalMinutes > 0
    requires !(length.Some? && length.value > cfg.queueThreshold)
    requires !(memoryBytes.Some? && memoryBytes.value > cfg.memoryThresholdMb * BytesPerMb)
    ensures Decide(cfg, length, memoryBytes, Some(now), now) == NotNeeded
    ensures Decide(cfg, length, memoryBytes, None, now) == FirstRun
  {
  }

  // ------------------------------------------------------------ batches

  /** The `count` of each `get_data` call: `min(batch_size, to_export - i)`
      for every batch start `i`. */
  function Counts(starts: seq<int>, toExport: int, batchSize: int): (cs: seq<int>)
    ensures |cs| == |starts|
  {
    seq(|starts|, k requires 0 <= k < |starts| => Min(batchSize, toExport - starts[k]))
  }

  lemma SumCons(x: int, s: seq<int>)
    ensures Sum([x] + s) == x + Sum(s)
    decreases |s|
  {
    if s != [] {
      assert ([x] + s)[..|s|] == [x] + s[..|s| - 1];
      SumCons(x, s[..|s| - 1]);
    }
  }

  lemma CountsCons(start: int, rest: seq<int>, toExport: int, batchSize: int)
    ensures Counts([start] + rest, toExport, batchSize) == [Min(batchSize, toExport - start)] + Counts(rest, toExport, batchSize)
  {
  }

  /** From any batch start on, the remaining counts add up to what is left. */
  lemma {:induction false} CountsSumFrom(start: int, toExport: int, batchSize: int)
    requires batchSize > 0
    ensures Sum(Counts(PyRange(start, toExport, batchSize).value, toExport, batchSize)) == Max(0, toExport - start)
    decreases toExport - start
  {
    var here := Counts(PyRange(start, toExport, batchSize).value, toExport, batchSize);
    if start < toExport {
      var rest := PyRange(start + batchSize, toExport, batchSize).value;
      var cs := Counts(rest, toExport, batchSize);
      var first := Min(batchSize, toExport - start);
      assert here == [first] + cs by {
        assert PyRange(start, toExport, batchSize).value == [start] + rest;
        CountsCons(start, rest, toExport, batchSize);
      }
      assert Sum(cs) == Max(0, toExport - (start + batchSize)) by {
        CountsSumFrom(start + batchSize, toExport, batchSize);
      }
      assert Sum(here) == first + Sum(cs) by {
        SumCons(first, cs);
      }
    } else {
      assert here == [];
    }
  }

  /** The batches ask for exactly `to_export` entries in all, each at most
      `batch_size`. */
  lemma BatchCountsSum(toExport: int, batchSize: int)
    requires batchSize > 0 && toExport >= 0
    ensures var cs := Counts(PyRange(0, toExport, batchSize).value, toExport, batchSize);
      Sum(cs) == toExport && forall k :: 0 <= k < |cs| ==> 0 < cs[k] <= batchSize
  {
    var starts := PyRange(0, toExport, batchSize).value;
    var cs := Counts(starts, toExport, batchSize);
    CountsSumFrom(0, toExport, batchSize);
    forall k | 0 <= k < |cs| ensures 0 < cs[k] <= batchSize {
      assert 0 <= starts[k] < toExport;
    }
  }

  /** The records gathered from the `get_data` replies, in call order; None
      as soon as one call raises. */
  function Gather(fetch: (nat, int) -> Option<seq<Record>>, counts: seq<int>): Option<seq<Record>>
  {
    if counts == [] then Some([])
    else
      var front := Gather(fetch, counts[..|counts| - 1]);
      var batch := fetch(|counts| - 1, counts[|counts| - 1]);
      if front.None? || batch.None? then None else Some(front.value + batch.value)
  }

  /** Once a call raises, the rest of the calls do not matter. */
  lemma {:induction false} GatherFailurePersists(fetch: (nat, int) -> Option<seq<Record>>, counts: seq<int>, n: nat)
    requires n <= |counts| && Gather(fetch, counts[..n]).None?
    ensures Gather(fetch, counts).None?
    decreases |counts| - n
  {
    if n < |counts| {
      assert counts[..n + 1][..n] == counts[..n];
      GatherFailurePersists(fetch, counts, n + 1);
    } else {
      assert counts[..n] == counts;
    }
  }

  // ------------------------------------------------------------ the export

  /** Why `export` reported an error. */
  datatype ExportFailure =
    | EmptyQueue                                  // total == 0
    | BelowThreshold(total: int, maxKeep: int)    // to_export == 0
    | ZeroBatchSize                               // range() raised
    | FetchFailed                                 // a get_data call raised
    | NoData                                      // the replies held nothing
    | WriteFailed                                 // writing the file raised

  /** `exported`, `export_file` and `error` of the stats `export` returns. */
  datatype ExportStats = ExportStats(exported: nat, file: Option<string>, error: Option<ExportFailure>)

  /** What `export` would write, before the write: the records, or why
      there are none. `total` is `get_queue_length()`. */
  function Collect(total: int, maxKeep: int, batchSize: int, fetch: (nat, int) -> Option<seq<Record>>): (r: Result<seq<Record>, ExportFailure>)
    ensures r.Ok? ==> total != 0 && total - maxKeep > 0 && batchSize != 0 && |r.value| > 0
    ensures total == 0 <==> r == Err(EmptyQueue)
    ensures total != 0 && total <= maxKeep ==> r == Err(BelowThreshold(total, maxKeep))
  {
    if total == 0 then Err(EmptyQueue)
    else
      var toExport := Max(0, total - maxKeep);
      if toExport == 0 then Err(BelowThreshold(total, maxKeep))
      else
        CollectBatches(toExport, batchSize, fetch)
  }

  /** The batch loop and the emptiness check, for `to_export` entries. */
  function CollectBatches(toExport: int, batchSize: int, fetch: (nat, int) -> Option<seq<Record>>): (r: Result<seq<Record>, ExportFailure>)
    ensures r.Ok? ==> batchSize != 0 && |r.value| > 0
  {
    match PyRange(0, toExport, batchSize)
    case Err(_) => Err(ZeroBatchSize)
    case Ok(starts) =>
      var data := Gather(fetch, Counts(starts, toExport, batchSize));
      if data.None? then Err(FetchFailed)
      else if data.value == [] then Err(NoData)
      else Ok(data.value)
  }

  /** The archive kind `export` chooses: parquet only when asked for and
      pandas is present, gzip for json with compression, plain json otherwise
      (any other format string included). */
  function KindFor(format: string, compress: bool, hasPandas: bool): (k: ArchiveKind)
    ensures k.ParquetArchive? <==> format == "parquet" && hasPandas
    ensures k.GzipArchive? <==> format == "json" && compress
  {
    if format == "parquet" && hasPandas then ParquetArchive
    else if format == "json" && compress then GzipArchive
    else JsonArchive
  }

  function LayoutOf(k: ArchiveKind): Layout
  {
    match k
    case ParquetArchive => Columnar
    case GzipArchive => GzipList
    case JsonArchive => PlainList
  }

  /** With at least one day of retention, the sweep that follows an export
      keeps the archive that export just wrote. */
  lemma SweepKeepsNewArchive(files: map<string, ArchiveFile>, k: ArchiveKind, f: ArchiveFile, now: DateTime, retentionDays: int)
    requires ValidNow(now) && retentionDays >= 1
    ensures var name := ArchiveName(now, k);
      name in Swept(files[name := f], now, retentionDays) && Swept(files[name := f], now, retentionDays)[name] == f
  {
    FreshArchiveKept(now, k, now, retentionDays);
  }

  class SmartExporter {
    const client: RedisClient
    const dir: ExportDir
    const config: ExportConfig
    /** Whether pandas could be imported. */
    const hasPandas: bool
    /** When the last successful export happened. */
    var lastExportTime: Option<DateTime>

    constructor (client: RedisClient, dir: ExportDir, config: ExportConfig, hasPandas: bool)
      ensures this.client == client && this.dir == dir && this.config == config && this.hasPandas == hasPandas
      ensures lastExportTime == None
    {
      this.client := client;
      this.dir := dir;
      this.config := config;
      this.hasPandas := hasPandas;
      lastExportTime := None;
    }

    /** `should_export`, probing the queue length through the client;
        the memory probe's answer is `memoryBytes`. Changes nothing. */
    method ShouldExport(memoryBytes: Option<int>, now: DateTime) returns (due: bool, reason: Reason)
      ensures reason == Decide(config, Some(if client.online then |client.queue| else -1), memoryBytes, lastExportTime, now)
      ensures due == Fires(reason)
    {
      var length := client.GetQueueLength();
      reason := Decide(config, Some(length), memoryBytes, lastExportTime, now);
      due := Fires(reason);
    }

    /**
     * `export(batch_size)`: export everything beyond `max_keep` to one
     * archive `data_{stamp}{ext}`. Only a successful export records its
     * time and runs the retention sweep; every failure leaves the directory
     * and `last_export_time` as they were.
     */
    method Export(batchSize: int, fetch: (nat, int) -> Option<seq<Record>>, now: DateTime) returns (stats: ExportStats)
      requires ValidNow(now)
      modifies this`lastExportTime, dir`files
      ensures var total := if client.online then |client.queue| else -1;
        var data := Collect(total, client.maxKeep, batchSize, fetch);
        var kind := KindFor(config.format, config.compress, hasPandas);
        var name := ArchiveName(now, kind);
        var ok := if kind.ParquetArchive? then dir.parquetWritable else dir.writable;
        if data.Err? || !ok then
          stats == ExportStats(0, None, Some(if data.Err? then data.error else WriteFailed))
          && dir.files == old(dir.files) && lastExportTime == old(lastExportTime)
        else
          var written := old(dir.files)[name := ArchiveFile(LayoutOf(kind), data.value)];
          stats == ExportStats(|data.value|, Some(Join(dir.path, name)), None)
          && lastExportTime == Some(now)
          && dir.files == if config.archiveEnabled then Swept(written, now, config.retentionDays) else written
    {
      var data := CollectData(batchSize, fetch);
      if data.Err? { return ExportStats(0, None, Some(data.error)); }
      var kind := KindFor(config.format, config.compress, hasPandas);
      var name := ArchiveName(now, kind);
      var ok := dir.Write(name, ArchiveFile(LayoutOf(kind), data.value));
      if !ok { return ExportStats(0, None, Some(WriteFailed)); }
      stats := ExportStats(|data.value|, Some(Join(dir.path, name)), None);
      lastExportTime := Some(now);
      CleanupOldArchives(now);
    }

    /** The reads of `export`, up to the write. Changes nothing. */
    method CollectData(batchSize: int, fetch: (nat, int) -> Option<seq<Record>>) returns (data: Result<seq<Record>, ExportFailure>)
      ensures data == Collect(if client.online then |client.queue| else -1, client.maxKeep, batchSize, fetch)
    {
      var total := client.GetQueueLength();
      var toExport := Max(0, total - client.maxKeep);
      if total == 0 {
        data := Err(EmptyQueue);
      } else if toExport == 0 {
        data := Err(BelowThreshold(total, client.maxKeep));
      } else {
        data := FetchBatches(toExport, batchSize, fetch);
      }
    }

    /** The batch loop of `export` and the check that it gathered something.
        Changes nothing. */
    method FetchBatches(toExport: int, batchSize: int, fetch: (nat, int) -> Option<seq<Record>>) returns (data: Result<seq<Record>, ExportFailure>)
      ensures data == CollectBatches(toExport, batchSize, fetch)
    {
      var starts := PyRange(0, toExport, batchSize);
      if starts.Err? { return Err(ZeroBatchSize); }
      var records := FetchAll(fetch, starts.value, toExport, batchSize);
      data := if records.None? then Err(FetchFailed) else if records.value == [] then Err(NoData) else Ok(records.value);
    }

    /** The batch loop of `export`: one `get_data(count)` per batch start,
        replies appended in order. Changes nothing. */
    method FetchAll(fetch: (nat, int) -> Option<seq<Record>>, starts: seq<int>, toExport: int, batchSize: int)
      returns (data: Option<seq<Record>>)
      ensures data == Gather(fetch, Counts(starts, toExport, batchSize))
    {
      ghost var counts := Counts(starts, toExport, batchSize);
      var all: seq<Record> := [];
      for k := 0 to |starts|
        invariant Gather(fetch, counts[..k]) == Some(all)
      {
        var count := Min(batchSize, toExport - starts[k]);
        var batch := fetch(k, count);
        assert counts[..k + 1][..k] == counts[..k];
        if batch.None? {
          GatherFailurePersists(fetch, counts, k + 1);
          return None;
        }
        all := all + batch.value;
      }
      assert counts[..|starts|] == counts;
      data := Some(all);
    }

    /**
     * `_cleanup_old_archives`: unless archiving is disabled, delete every
     * file matching an archive glob whose name carries a date strictly
     * before `now - retention_days`. Files whose name has no readable date
     * are skipped.
     */
    method CleanupOldArchives(now: DateTime)
      modifies dir`files
      ensures dir.files == if config.archiveEnabled then Swept(old(dir.files), now, config.retentionDays) else old(dir.files)
    {
      if !config.archiveEnabled { return; }
      var pending := dir.files.Keys;
      while pending != {}
        invariant pending <= old(dir.files).Keys
        invariant forall n :: n in dir.files <==>
          n in old(dir.files) && (n in pending || !(IsArchiveName(n) && Expired(n, now, config.retentionDays)))
        invariant forall n :: n in dir.files ==> dir.files[n] == old(dir.files)[n]
        decreases pending
      {
        var n :| n in pending;
        if IsArchiveName(n) && Expired(n, now, config.retentionDays) {
          dir.Remove(n);
        }
        pending := pending - {n};
      }
    }
  }
}
