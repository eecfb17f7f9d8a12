# Quota-bounded ingestion queue and its export-then-trim drain

This project models the write path and the drain of a crawler system's Redis
queue.

- **`RedisClient`** is the only writer. It pushes each record at the head of
  a Redis list (index 0 is the newest entry). Optionally it first slims the
  record to an allow-list of fields. It enforces a soft per-source quota of
  `int(max_keep * fraction)` records, kept in one counter key per source. It
  can rebuild those counters by scanning the head of the list.
- **`DataExporter`** is the drain. When the list holds more than `max_keep`
  entries it reads the oldest `length - max_keep` in consecutive `LRANGE`
  batches and writes them to a file. Only then does it trim the list to the
  newest `max_keep` and rebuild the counters. `export_by_source` writes each
  source's overflow beyond a per-source cap to its own file.
- **`SmartExporter`** decides when to export from three signals: queue depth,
  memory, and time since the last export (the first run always exports). It
  sizes and splits the export into batches, names the archive after the
  current time, and sweeps archives older than the retention period by
  parsing the date out of their names.
- **`CrawlerControlCenter`** decides which crawlers a configuration enables,
  accumulates their per-run statistics, and requests the drain when the
  queue or memory crosses a threshold.

The model is split into modules:

- `Common`: options, results, Python's `range`, sums.
- `Records`: JSON values, records, the opaque encoding of queue entries, slimming, tallies.
- `Clock`: dates, `%Y%m%d_%H%M%S` stamps and the `%Y%m%d` parse.
- `RedisList`: the index rules of `LRANGE`/`LTRIM`.
- `Redis`: the client class.
- `Archives`: the export directory, file names and the retention sweep.
- `DataExport`, `SmartExport` and `ControlCenter`: the three classes above.

State that the source changes in place is modelled as class fields:

- the client's `queue: seq<Entry>` and `counters: map<string, int>`;
- the export directory's `files`;
- the smart exporter's `lastExportTime`;
- the control center's `statistics`.

Loops in the source are `while`/`for` loops proved against specification
functions:

- the batch admission of `push_batch`;
- the tally of `rebuild_source_counts`;
- the batched reads of `_export_data` and `export`;
- the grouping and per-source writes of `export_by_source`;
- the archive sweep.

The environment is modelled as follows:

- A store failure is one `online` flag on the client: every Redis call fails
  while it is false.
- A JSON entry in the list is either `Encoded(record)` or malformed `Garbage`.
- A file write is an effect on `ExportDir.files` that may fail, controlled by
  the `writable` and `parquetWritable` flags.
- The current time is a parameter `now`.

## Model

| member | source | states |
|---|---|---|
| Common.PyRange | project/utils/data_exporter.py:128 | Python's `range(start, stop, step)`: raises exactly when `step` is 0. Otherwise it starts at `start`, advances by `step`, stays strictly before `stop` in the step's direction, and is non-empty when that interval is. |
| Records.DecodeAll | project/utils/data_exporter.py:131 | Decoding a list of entries succeeds iff every entry is well-formed JSON. The result then has the same length and holds each entry's record at the same index. |
| Records.DecodeAllAppend | project/utils/data_exporter.py:127-131 | Decoding batches one after another and extending the list equals decoding their concatenation. It fails iff one batch fails. |
| Records.DecodeAllEncoded | project/utils/redis_client.py:97 | Round trip: decoding the encodings of records gives back the records. |
| Records.Slim | project/utils/redis_client.py:125-164 | `_slim_data` raises exactly when `summary` is missing and `text` is present but not a string. |
| Records.SlimShape | project/utils/redis_client.py:144-162 | A slimmed record holds only the eight allow-listed fields and keeps every allow-listed field it was given. A missing `timestamp` is filled from `crawl_timestamp`, and a missing `summary` from the first 500 characters of `text`. Nothing else is added. |
| Records.SlimIdempotent | project/utils/redis_client.py:155-164 | Slimming a slimmed record changes nothing. |
| Records.SlimKeepsSource | project/utils/redis_client.py:101 | Slimming never changes the source a record is counted under (`source`, or `'unknown'` when missing or falsy). |
| Records.SourceOf | project/utils/redis_client.py:101 | `data.get('source') or 'unknown'`: a non-empty string source names itself, and a missing or falsy one gives `unknown`. |
| Records.SourcesOf | project/utils/redis_client.py:284-290 | The rebuild sees at most one source per scanned entry, since malformed entries are skipped. With no malformed entries it sees exactly one per entry. |
| Records.TallyCounts | project/utils/redis_client.py:283-290 | The tally has exactly the sources seen, each mapped to its number of occurrences. |
| Records.TallyTotal | project/utils/redis_client.py:283-290 | The tallied counts sum to the number of sources seen. |
| Clock.MidnightNotAfter | project/utils/smart_exporter.py:261-263 | A valid time lies in `[midnight of its day, next midnight)`. |
| Clock.Stamp | project/utils/data_exporter.py:114 | `strftime('%Y%m%d_%H%M%S')`: 15 characters, the 8 date digits, an underscore, then only digits. |
| Clock.ParseYmd | project/utils/smart_exporter.py:261 | `strptime(s, '%Y%m%d')` succeeds only on 8 characters naming a valid date. |
| Clock.ReadPad | project/utils/smart_exporter.py:174 | Round trip: reading back a zero-padded number gives the number. |
| Clock.ParseDateDigits | project/utils/smart_exporter.py:174 | Round trip: parsing the `%Y%m%d` digits of a date gives that date. |
| RedisList.Window | project/utils/data_exporter.py:130 | The `LRANGE`/`LTRIM` window always lies inside the list. |
| RedisList.RangeOf | project/utils/data_exporter.py:130 | `LRANGE` returns exactly the entries of the window, in list order. |
| RedisList.RangeInside | project/utils/data_exporter.py:129-130 | With in-range indices, `LRANGE i r` is the slice `[i, r]`. |
| RedisList.RangeFromHead | project/utils/redis_client.py:230 | `LRANGE 0 n-1` with `n >= 1` returns the `min(n, length)` newest entries. |
| RedisList.RangeZeroCountSelectsAll | project/utils/data_exporter.py:171 | `LTRIM 0 -1` keeps the whole list. |
| Redis.CountKeyInjective | project/utils/redis_client.py:237-238 | Different sources get different counter keys, so counters can be keyed by source name. |
| Redis.TruncDiv | project/utils/redis_client.py:248 | `int()` of a quotient truncates toward zero, for both signs. |
| Redis.QuotaLimit | project/utils/redis_client.py:240-250 | `_quota_limit` is None iff the source has no quota or its quota is not numeric. Otherwise it is `floor(max_keep * q)` for a non-negative product. |
| Redis.Exceeds | project/utils/redis_client.py:252-261 | Only a reachable store and a source with a numeric quota can reject a record: a source without a quota, or with a non-numeric one, and an unreadable counter never do. |
| Redis.ExceedsIffNextPassesShare | project/utils/redis_client.py:252-261 | With a positive limit, a source is rejected iff one more record would take its count past `max_keep * q`. |
| Redis.QuotaExample | project/tests/test_redis_client.py:53-72 | With `max_keep` 1000 and reddit at 0.5, counts of 600 and 500 are rejected and 499 is admitted. Sources without a quota are never rejected. |
| Redis.Reversed | project/utils/redis_client.py:188 | Pushing a list at the head entry by entry reverses it. |
| Redis.Prepare | project/utils/redis_client.py:182-183 | What the batch stores for a record: the record itself outside slim mode. In slim mode it is the slimmed record, or nothing when slimming raises. It is counted under the same source. |
| Redis.PlanBatch | project/utils/redis_client.py:181-190 | Every admitted entry is an encoding, is paired with its own source, and passed the quota check against the pre-batch counters. A raising slim abandons the batch, which happens only in slim mode and before the last record. |
| Redis.AdmittedMembers | project/utils/redis_client.py:181-190 | A record is admitted iff some record of the batch is stored as it (slimmed in slim mode) and its source passes the quota check against the pre-batch counters. |
| Redis.PlanBatchAdmits | project/utils/redis_client.py:176-203 | The admission loop completes iff no record makes slimming raise. It then queues exactly the encodings of the `Admitted` records, in batch order, each with its own source. |
| Redis.SlimRaisedPersists | project/utils/redis_client.py:182-183 | Once slimming raises, the rest of the batch is ignored. |
| Redis.BatchOvershootsLimit | project/utils/redis_client.py:185 | Quotas are checked against the pre-batch counters: with a limit of 1, one batch admits three records of the same source. |
| Redis.BatchReport | project/utils/redis_client.py:191-203 | The corrected return value is positive iff the pipeline ran. It never exceeds the value as written. |
| Redis.BatchReportAsWrittenOverstates | project/utils/redis_client.py:176-203 | As written, `push_batch` reports one record pushed when nothing was written: with the store down, and when slimming a later record raises. |
| Redis.Reconciled | project/utils/redis_client.py:292-295 | After a rebuild, every source seen holds its tally, and every other counter keeps its old value. |
| Redis.ReconciledTotal | project/utils/redis_client.py:283-290 | The rebuilt counts sum to at most the number scanned, and exactly that when every entry decodes. |
| Redis.RebuildExample | project/tests/test_redis_client.py:89-121 | Three reddit, one twitter and one rss record tally to `{reddit: 3, twitter: 1, rss: 1}`. |
| Redis.TallySources | project/utils/redis_client.py:283-290 | The tally loop computes the tally of the sources of the decodable entries. |
| Redis.RedisClient.constructor | project/utils/redis_client.py:42-55 | `max_keep` defaults to 10000. Queue, counters, slim mode and quotas are as configured. |
| Redis.RedisClient.GetQueueLength | project/utils/redis_client.py:205-217 | The list length, or -1 when the store fails. |
| Redis.RedisClient.Range | project/utils/data_exporter.py:130 | `LRANGE` returns the window and changes nothing. It fails when the store fails. |
| Redis.RedisClient.Trim | project/utils/data_exporter.py:171 | `LTRIM` keeps exactly the window. It changes nothing when the store fails. |
| Redis.RedisClient.Delete | project/utils/data_exporter.py:161-172 | Deleting the list empties it. It changes nothing when the store fails. |
| Redis.RedisClient.PeekData | project/utils/redis_client.py:219-234 | Returns the decoded `count` newest entries, each equal to the entry at the same index. It returns `[]` on a store failure or a malformed entry, and never changes the queue. |
| Redis.RedisClient.PushData | project/utils/redis_client.py:81-123 | Returns True iff the store is up, slimming succeeds and the source is not over quota. Then the (slimmed) record is at index 0 and its source counter grew by 1. On False, queue and counters are unchanged. |
| Redis.RedisClient.AdmitBatch | project/utils/redis_client.py:179-190 | The admission loop computes the batch plan, and `to_incr` is the tally of the admitted sources. |
| Redis.RedisClient.PushEntries | project/utils/redis_client.py:188 | The pipelined pushes leave the admitted entries reversed at the head, so the last admitted entry is newest. |
| Redis.RedisClient.IncrementAll | project/utils/redis_client.py:194-198 | Each counter grows by its source's admitted count. |
| Redis.RedisClient.PushBatch | project/utils/redis_client.py:166-203 | Returns the number of records written. On 0, nothing changed. Otherwise it is the number of `Admitted` records, their encodings are at the head in reverse order, and each source counter grew by its number of admitted records. With the store up and no slim raising, every admitted record is written. |
| Redis.RedisClient.RebuildSourceCounts | project/utils/redis_client.py:263-300 | Scans `min(length, max_scan)` head entries and returns `(0, {})` when that is not positive or the store fails. Otherwise it returns the scanned count and the tally, and the counters become the reconciled ones. |
| Archives.ExportDir.Write | project/utils/smart_exporter.py:216-238 | A write that succeeds adds or overwrites exactly that file. A failing write changes nothing. |
| Archives.ExportDir.Remove | project/utils/smart_exporter.py:265 | `unlink` removes exactly that file. |
| Archives.Join | project/utils/data_exporter.py:117 | The joined path starts with the directory and ends with the file name. |
| Archives.SplitOnFirst | project/utils/smart_exporter.py:256 | `split('_')` of `a_b`, with `a` free of underscores, is `[a]` followed by the split of `b`. |
| Archives.StemOf | project/utils/smart_exporter.py:256 | `stem` of `p.q` is `p` when the suffix `q` has no dot. |
| Archives.SplitStampedName | project/utils/smart_exporter.py:256-260 | For `data_{stamp}{rest}`, `parts[0]` is "data" and `parts[1]` is the date digits. |
| Archives.ArchiveNameStem | project/utils/smart_exporter.py:174-188 | The stem of an archive name drops only its last suffix, so `.json.gz` keeps `.json`. |
| Archives.ArchiveNameMatches | project/utils/smart_exporter.py:251 | Every name `export` writes matches one of the sweep's globs. |
| Archives.ArchiveNameDate | project/utils/smart_exporter.py:256-261 | The sweep reads back exactly the date `export` stamped into the name. |
| Archives.DrainFileDate | project/utils/data_exporter.py:116 | The drain's `data_export_*` files yield `parts[1] == "export"`, which does not parse as a date. |
| Archives.DrainFilesNeverExpire | project/utils/smart_exporter.py:256-263 | The sweep never deletes a drain file. |
| Archives.SourceFileDate | project/utils/data_exporter.py:214 | A per-source file is dated by its source name, so it is swept only if that name reads as a date. |
| Archives.ArchiveDate | project/utils/smart_exporter.py:256-261 | The date the sweep reads from a name is a valid date, and there is none when the stem has no underscore. |
| Archives.Expired | project/utils/smart_exporter.py:261-263 | Only a file whose name yields a date can be expired. |
| Archives.ExpiredInDays | project/utils/smart_exporter.py:245-263 | `file_date < now - retention_days` iff the file's day is more than `retention_days` days back, or exactly that many days back and `now` is past midnight. |
| Archives.FreshArchiveKept | project/utils/smart_exporter.py:245-263 | With at least a day of retention, an archive stamped today is never deleted. |
| Archives.ExpiredMonotone | project/utils/smart_exporter.py:245 | A longer retention never deletes more: what expires under it expires under any shorter one. |
| Archives.SweptIdempotent | project/utils/smart_exporter.py:250-271 | Sweeping twice at the same moment removes nothing more than sweeping once. |
| DataExport.NormalizeFormat | project/utils/data_exporter.py:34-36 | The requested format, or the configured one when none is given, is Parquet iff it lower-cases to `parquet`. Anything else is JSON. |
| DataExport.ExportRecords | project/utils/data_exporter.py:120-131 | The read fails with `BadBatchSize` iff the batch size is not positive, and with `Malformed` iff an entry in the selected tail does not decode. With the store down it reads nothing. Otherwise it returns `min(count, length)` records (none for a non-positive count), which encode back to the oldest entries of the queue. |
| DataExport.Windows | project/utils/data_exporter.py:128-130 | Every batch window lies inside `[start, end]`. |
| DataExport.WindowsPartition | project/utils/data_exporter.py:128-131 | The batch windows cover `[start, end]` exactly, in order, without gaps or overlaps. |
| DataExport.WindowStarts | project/utils/data_exporter.py:128 | The window starts are exactly `range(start, end + 1, batch_size)`. |
| DataExport.NegativeBatchReadsNothing | project/utils/data_exporter.py:128 | As written, a negative batch size runs the read loop zero times over a non-empty window. |
| DataExport.TrimAsWrittenAgrees | project/utils/data_exporter.py:171 | For `max_keep >= 1`, `LTRIM 0 max_keep-1` keeps exactly the newest `max_keep`. |
| DataExport.TrimAsWrittenKeepsAllAtZero | project/utils/data_exporter.py:171 | As written, `max_keep = 0` keeps the whole list instead of none of it. |
| DataExport.TrimAsWrittenBelowZero | project/utils/data_exporter.py:171 | As written, a negative `max_keep` drops only the `-max_keep` oldest entries, where the corrected trim keeps none. |
| DataExport.DrainSplitsQueue | project/utils/data_exporter.py:74-83 | The entries exported and the entries kept together make up the queue: the export takes exactly what the trim drops. |
| DataExport.Group | project/utils/data_exporter.py:191-196 | Every record in a source's group has that source. |
| DataExport.GroupKey | project/utils/data_exporter.py:193 | `item.get('source', 'unknown')`: for a missing or truthy source, the group key renders as the source the record is counted under. |
| DataExport.GroupSize | project/utils/data_exporter.py:191-196 | A group holds as many records as the queue has records of that source. |
| DataExport.Overflow | project/utils/data_exporter.py:202 | `data_list[max_per_source:]` with Python's slicing: a suffix of the group, whose length is the group's size past the first `max_per_source` (none of a smaller group), and for a negative bound the last `-max_per_source` records (all of a smaller group). |
| DataExport.FirstSeen | project/utils/data_exporter.py:194-195 | The sources as the grouping dict holds them: each source once, and no others. |
| DataExport.FirstSeenOrder | project/utils/data_exporter.py:194-195 | The order is that of first appearance: a source listed before another already occurred in the records before any occurrence of the later one. |
| DataExport.SourceFileNameInjective | project/utils/data_exporter.py:214 | Different sources exported in the same second get different files. |
| DataExport.ReportedShape | project/utils/data_exporter.py:199-204 | The per-source write loop reports exactly the over-cap sources, each with its overflow size. |
| DataExport.ReportedIsOverflowCounts | project/utils/data_exporter.py:191-204 | Grouping then looping over sources in first-seen order reports `OverflowCounts`. |
| DataExport.GroupBySource | project/utils/data_exporter.py:191-196 | The grouping loop builds one bucket per source present, equal to that source's group, and records the sources in first-seen order. |
| DataExport.SourceWritesHold | project/utils/data_exporter.py:199-204 | After the write loop, a reported group's file holds exactly its overflow, when no other group in the order renders to the same name. |
| DataExport.SourceWritesElsewhere | project/utils/data_exporter.py:199-204 | The write loop leaves every file that is not a reported group's file as it was, present or absent. |
| DataExport.SourceFilesHoldOverflow | project/utils/data_exporter.py:191-204 | What `export_by_source` leaves on disk: each reported source that no other source renders like has a file holding `data_list[max_per_source:]` of its group, and every other file is untouched. |
| DataExport.DataExporter.constructor | project/utils/data_exporter.py:32-36 | The format is normalised to JSON or Parquet. |
| DataExport.DataExporter.ExportData | project/utils/data_exporter.py:103-159 | On success, exactly one file holds the oldest `count` entries, decoded in queue order. With the store down the length reads as -1 and that file is empty. It is the parquet file, or the `.json` fallback when `to_parquet` raises. A bad batch size, a malformed entry or a failed write return an error and leave the directory unchanged. |
| DataExport.DataExporter.ReadOldest | project/utils/data_exporter.py:121-131 | The batch loop returns the decoded entries from `max(0, length - count)` to the tail, or the error that stops it. |
| DataExport.DataExporter.ReadWindow | project/utils/data_exporter.py:129-131 | One batch's records extend the records read so far, or a malformed batch fails the whole export. |
| DataExport.DataExporter.TrimQueue | project/utils/data_exporter.py:161-172 | The queue becomes exactly its `max_keep` newest entries, none when `max_keep <= 0`. It is unchanged when the store fails. |
| DataExport.DataExporter.ExportAndTrim | project/utils/data_exporter.py:43-101 | At or under `max_keep` nothing changes. Otherwise the oldest `length - max_keep` entries are written first. Only after that write does the queue shrink to its newest `max_keep` and the counters get rebuilt from what is kept. A failed export leaves queue, counters and directory untouched. The predicate `ExportedThenTrimmed` states this, and the control center's drain reuses it. |
| DataExport.DataExporter.Drain | project/utils/data_exporter.py:73-96 | The part of `export_and_trim` after the length check: export, then trim and rebuild, with the statistics it reports. |
| DataExport.DataExporter.ExportBySource | project/utils/data_exporter.py:174-209 | Reports `OverflowCounts` of the peeked records. The directory becomes `SourceWrites`: each over-cap group's overflow written to its file in first-seen order, a later file replacing an earlier one of the same name. No file is removed, and every reported source has its file. An unwritable directory reports `{}` and writes nothing. |
| DataExport.DataExporter.ExportGroups | project/utils/data_exporter.py:199-204 | The per-source write loop reports the over-cap sources of the order and leaves the directory equal to `SourceWrites` over that order. An unwritable directory reports nothing and keeps its files. |
| SmartExport.Decide | project/utils/smart_exporter.py:79-115 | A disabled exporter reports `Disabled` and never fires. Otherwise each reason is chosen iff its own signal fires and none before it does, in the order queue depth, memory, first run, elapsed interval. It fires iff one of them does. A probe that raised gives no signal. Each reason carries its length, memory reading or elapsed seconds. |
| SmartExport.FailedProbeFallsThrough | project/utils/smart_exporter.py:94-104 | A failed length or memory probe decides like a probe that did not fire. |
| SmartExport.JustExportedNotDue | project/utils/smart_exporter.py:106-115 | Right after an export only depth or memory can trigger. Before any export the first run triggers. |
| SmartExport.CountsSumFrom | project/utils/smart_exporter.py:159-160 | The batch counts from any start sum to what remains. |
| SmartExport.BatchCountsSum | project/utils/smart_exporter.py:159-160 | The batch counts sum exactly to `to_export`, and each lies in `(0, batch_size]`. |
| SmartExport.GatherFailurePersists | project/utils/smart_exporter.py:159-163 | Once one fetch raises, the export fails whatever the later fetches return. |
| SmartExport.Collect | project/utils/smart_exporter.py:139-171 | An empty queue and a queue at or under `max_keep` are reported as such. Data is returned only for a positive `to_export`, a non-zero batch size, and a non-empty reply. |
| SmartExport.CollectBatches | project/utils/smart_exporter.py:157-171 | The batch loop yields data only for a non-zero batch size and a non-empty reply. |
| SmartExport.SweepKeepsNewArchive | project/utils/smart_exporter.py:203-206 | The sweep after an export keeps the archive that export just wrote. |
| SmartExport.SmartExporter.constructor | project/utils/smart_exporter.py:56-70 | No export has happened yet. |
| SmartExport.SmartExporter.ShouldExport | project/utils/smart_exporter.py:79-115 | The decision and its reason on the probed queue length, the memory reading and the last export time. |
| SmartExport.SmartExporter.Export | project/utils/smart_exporter.py:117-214 | On any failure: exported 0, the reason, no file, and `last_export_time` unchanged. On success: one archive named after `now` holds the fetched records, `last_export_time` becomes `now`, and the directory is then swept. |
| SmartExport.SmartExporter.CollectData | project/utils/smart_exporter.py:139-171 | Computes `Collect` on the probed queue length. |
| SmartExport.SmartExporter.FetchBatches | project/utils/smart_exporter.py:157-171 | Computes `CollectBatches`. |
| SmartExport.SmartExporter.FetchAll | project/utils/smart_exporter.py:159-163 | The fetch loop gathers the replies in call order. |
| SmartExport.SmartExporter.CleanupOldArchives | project/utils/smart_exporter.py:240-275 | The directory becomes its sweep, or stays unchanged when archiving is disabled. |
| ControlCenter.OnlyRedditByPresence | project/control_center.py:105-175 | Without any `enabled` keys, only reddit runs, and only if its section is present. |
| ControlCenter.OthersNeedExplicitEnable | project/control_center.py:103-175 | Every crawler but reddit is enabled only by a truthy `enabled` key. |
| ControlCenter.InitialStatistics | project/control_center.py:37-43 | One row per crawler with its own counters, all zero. |
| ControlCenter.AccumulateWellFormed | project/control_center.py:37-43 | Accumulating keeps every row's counter set. |
| ControlCenter.AccumulateTwice | project/control_center.py:200-215 | Two runs add up like one run reporting the sums. |
| ControlCenter.AccumulateCommutes | project/control_center.py:229-230 | Runs of different crawlers commute. |
| ControlCenter.FailureCountsAsError | project/control_center.py:218-221 | A raising crawl counts like a run reporting `{'errors': 1}`. |
| ControlCenter.RedditRun | project/control_center.py:200-203 | Reddit's three in-place updates are one accumulation. |
| ControlCenter.CounterAndErrorsRun | project/control_center.py:204-215 | The two in-place updates of every other crawler are one accumulation. |
| ControlCenter.RecordRun | project/control_center.py:200-215 | The per-crawler update chain equals `Accumulate`. |
| ControlCenter.DefaultTrigger | project/control_center.py:248-264 | With no thresholds set, the drain is requested iff the queue is longer than `max_keep`. |
| ControlCenter.DrainRequested | project/control_center.py:256-264 | Without the memory trigger, the drain is requested only for a queue longer than both the threshold and `max_keep`. |
| ControlCenter.DepthTriggerDrains | project/control_center.py:257 | On a well-formed queue, a depth trigger starts a drain that exports `length - max(0, max_keep)` records, at least one for a non-negative `max_keep`. The kept entries followed by the exported ones are the queue. |
| ControlCenter.CrawlerControlCenter.constructor | project/control_center.py:37-43 | The crawlers built are the enabled ones whose construction did not raise, and statistics start at zero. |
| ControlCenter.CrawlerControlCenter.RunCrawler | project/control_center.py:179-221 | An unknown or disabled name returns `{}` and changes nothing. Otherwise the reported counts, or `{'errors': 1}` for a raising crawl, are returned and accumulated. |
| ControlCenter.CrawlerControlCenter.ExportData | project/control_center.py:238-281 | The drain runs iff requested, and otherwise nothing changes. A requested drain does exactly what `export_and_trim(max_keep)` does with batches of 1000 and the configured format: the oldest `length - max_keep` entries are written first, then the queue is trimmed to its newest `max_keep` and the counters are rebuilt; at or under `max_keep` (a memory trigger alone), or when the export fails, nothing changes. Whatever happens, the queue only loses its oldest entries. When it loses any, the drain file is in the directory, the statistics name it, and it holds the oldest `length - max_keep` entries, decoded. |

## Left out

- The Redis connection, `ping`, logging, `close` and the data TTL (only logged) are not modelled.
- `get_memory_usage` is not modelled: the memory reading is an integer number of bytes passed in. `SmartExport.SmartExporter.ShouldExport` and `ControlCenter.CrawlerControlCenter.ExportData` compare bytes against `threshold * 1048576` instead of float megabytes, so float rounding is not modelled.
- JSON, gzip and parquet encodings are opaque. An entry either decodes to its record or is malformed, and a file holds its layout and records.
- `Records.Slim` treats every non-string `text` as raising when it is sliced. `Other` stands for lists as well as numbers, booleans and objects, and Python slices a list-valued `text` without raising, so for a list the model raises where Python does not.
- `datetime.now()` is the single parameter `now`: the model assumes the clock does not move within one call. `export_time` is written as that `now`.
- `strptime`'s lenient forms (fewer digits, surrounding spaces) are not modelled. `ParseYmd` accepts exactly eight digits.
- `Archives.ExpiredInDays`: times are whole seconds, so sub-second timestamps are not modelled.
- `stat`/`unlink` failures inside the sweep are not modelled, and neither is the `file_size_mb` figure.
- The sweep reads the directory once; files are unique by name, so the overlap of the three globs does not matter.
- Directory creation in both exporters is not modelled.
- `SmartExporter.get_export_stats` is not modelled: it only aggregates file sizes.
- `_load_export_format` reading `config.yaml` is not modelled: the configured format is a parameter of `DataExport.DataExporter.constructor`.
- `redis_client.get_data`, which `SmartExporter.export` calls, does not exist on the client. The model passes it in as the parameter `fetch`, without inventing its semantics.
- The unreachable no-pandas branch of `_export_parquet` is not modelled, since parquet is chosen only when pandas is present.
- Producers racing the drain are not modelled. The quota is checked, then pushed, one call at a time, and `Exceeds` is a best-effort soft limit.
- The `online` flag is fixed during one call. A store that fails between two `LRANGE` batches, or between the trim and the rebuild, is not modelled.
- `Redis.QuotaLimit` states `floor(max_keep * q)` only for a non-negative product. Negative quotas follow `TruncDiv`, which truncates toward zero.
- `Redis.Quota` is a rational number. Float rounding of `max_keep * float(q)` is not modelled.
- `int()` failures on configuration values in `_export_data` are not modelled: the settings arrive as integers.
- Lower-casing of the format name is ASCII only.
- A JSON entry that decodes to something other than an object is not modelled: every entry is a record or malformed.
- Non-string `source` values are keyed by their rendering. `Records.SourceOf` renders the value, and quotas and counters are keyed by that string, while Python keys them by the raw value. So with quotas configured, a list- or object-valued `source` makes `quotas.get(source)` raise and `push_data` return False, where the model pushes the record. The rebuild keeps `5` and `"5"` apart, then sets the same counter key twice, where the model adds them up. `export_by_source` raises on an unhashable `source` and returns `{}` before writing anything, where the model groups it. None of the crawlers writes a non-string `source`.
- `DataExport.SourceFilesHoldOverflow` describes a group's file only when no other source renders like it. `None` and `'None'` render alike and share a file name, so the group written later replaces the earlier group's file, as in Python. `SourceWrites` models that replacement, but no lemma describes the surviving file.
- The `SmartExporter` configuration defaults are not modelled: its constructor takes the resolved `ExportConfig`.
- A configuration section is modelled as absent, `null` or a mapping. In Python a number or boolean section (`rss: true`) makes `'enabled' in conf` raise, and the exception escapes the `CrawlerControlCenter` constructor. A string or list section is searched with `in`: without an `'enabled'` substring or element it acts like a mapping without the key, and with one, `conf.get` raises.
- The JSON fallback after a failed `to_parquet` replaces every `.parquet` in the whole joined path, not only in the file name. The model always writes `data_export_{ts}.json` into the export directory, so an export directory whose path contains `.parquet`, which makes Python write the JSON elsewhere, is not modelled.
- The crawlers, the CLI scripts and the configuration validator are not part of this model.

## Findings

| source | as written | input that shows it | evidently intended | confidence | as-written member | corrected member |
|---|---|---|---|---|---|---|
| project/utils/redis_client.py:176-203 | `success_count` is incremented while the pushes are only queued on the pipeline. It is returned even when `execute()` or a later slim raises and nothing is written. | one record with the store down: returns 1, queue unchanged. Also `[{"source": "rss"}, {"text": null}]` in slim mode: returns 1, nothing pushed | return the number of records actually written | not executed | Redis.BatchReportAsWrittenOverstates | Redis.RedisClient.PushBatch |
| project/utils/data_exporter.py:171 | `LTRIM queue 0 max_keep-1` with `max_keep = 0` is `LTRIM queue 0 -1`, which keeps the whole list. With a negative `max_keep` it keeps all but the `-max_keep` oldest entries | `max_keep = 0` on a non-empty queue: everything is exported, then nothing is trimmed. `max_keep = -1` on 10 entries: all 10 are exported and 9 stay | keep the newest `max_keep` entries, so none at 0 or below | not executed | DataExport.TrimAsWrittenKeepsAllAtZero, DataExport.TrimAsWrittenBelowZero | DataExport.DataExporter.TrimQueue |
| project/utils/data_exporter.py:128 | `range(start, end + 1, batch_size)` with a negative `batch_size` is empty, so nothing is read, yet the queue is then trimmed | `batch_size = -1`, 1500 entries, `max_keep = 1000`: an empty file is written and 500 entries are trimmed away | reject a non-positive batch size (as 0 already does by raising) before trimming | not executed | DataExport.NegativeBatchReadsNothing | DataExport.ExportRecords (`BadBatchSize` iff the batch size is not positive), which DataExport.DataExporter.ExportAndTrim uses before any trim |
