/**
 * The drain (`DataExporter`): when the queue holds more than `max_keep`
 * entries, write the oldest `length - max_keep` of them to a file, read in
 * consecutive LRANGE batches, then trim the list to its `max_keep` newest
 * entries and rebuild the per-source counters. Export strictly precedes the
 * trim, and a failed export leaves the queue untouched.
 */
module DataExport {
  import opened Common
  import opened Records
  import opened Clock
  import opened RedisList
  import opened Redis
  import opened Archives

  datatype Format = Json | Parquet

  function LowerChar(c: char): char
  {
    if 'A' <= c <= 'Z' then (c as int + 32) as char else c
  }

  /** `str.lower()` on ASCII letters. */
  function Lower(s: string): (r: string)
    ensures |r| == |s| && forall i :: 0 <= i < |s| ==> r[i] == LowerChar(s[i])
  {
    seq(|s|, i requires 0 <= i < |s| => LowerChar(s[i]))
  }

  /** The format a drain writes: the requested one, or the configured one
      when none (or an empty one) is requested, compared without regard to
      case; anything other than parquet is json. */
  function NormalizeFormat(requested: Option<string>, configured: string): (f: Format)
    ensures var chosen := if requested.Some? && requested.value != "" then requested.value else configured;
      f == Parquet <==> |chosen| == 7 && forall i :: 0 <= i < 7 ==> LowerChar(chosen[i]) == "parquet"[i]
  {
    var chosen := if requested.Some? && requested.value != "" then requested.value else configured;
    if Lower(chosen) == "parquet" then Parquet else Json
  }

  // ------------------------------------------------------------ batch windows

  /** The LRANGE windows `[i, min(end, i + batch_size - 1)]` for `i` in
      `range(start, end + 1, batch_size)`. */
  function Windows(start: int, end: int, batchSize: int): (ws: seq<(int, int)>)
    requires batchSize > 0
    ensures forall k :: 0 <= k < |ws| ==> start <= ws[k].0 <= ws[k].1 <= end
    decreases end - start + 1
  {
    if start > end then []
    else [(start, Min(end, start + batchSize - 1))] + Windows(start + batchSize, end, batchSize)
  }

  /** The integers `lo, lo + 1, …, hi`. */
  function Interval(lo: int, hi: int): (s: seq<int>)
    ensures |s| == if lo <= hi then hi - lo + 1 else 0
    ensures forall k :: 0 <= k < |s| ==> s[k] == lo + k
  {
    if lo > hi then [] else seq(hi - lo + 1, k requires 0 <= k <= hi - lo => lo + k)
  }

  /** The indices a sequence of windows reads, in reading order. */
  function Covered(ws: seq<(int, int)>): seq<int>
  {
    if ws == [] then [] else Interval(ws[0].0, ws[0].1) + Covered(ws[1..])
  }

  /** The windows read every index of `[start, end]` exactly once, in order. */
  lemma {:induction false} WindowsPartition(start: int, end: int, batchSize: int)
    requires batchSize > 0
    ensures Covered(Windows(start, end, batchSize)) == Interval(start, end)
    decreases end - start + 1
  {
    if start <= end {
      var r := Min(end, start + batchSize - 1);
      WindowsPartition(start + batchSize, end, batchSize);
      var ws := Windows(start, end, batchSize);
      assert ws[1..] == Windows(start + batchSize, end, batchSize);
      if r < end {
        assert r + 1 == start + batchSize;
      }
      assert Interval(start, r) + Interval(r + 1, end) == Interval(start, end);
    }
  }

  /** The windows start exactly where Python's `range` puts them. */
  lemma {:induction false} WindowStarts(start: int, end: int, batchSize: int)
    requires batchSize > 0
    ensures var ws, starts := Windows(start, end, batchSize), PyRange(start, end + 1, batchSize).value;
      |starts| == |ws| && forall k :: 0 <= k < |ws| ==> starts[k] == ws[k].0
    decreases end - start + 1
  {
    if start <= end {
      WindowStarts(start + batchSize, end, batchSize);
      var ws := Windows(start, end, batchSize);
      var starts := PyRange(start, end + 1, batchSize).value;
      assert ws[1..] == Windows(start + batchSize, end, batchSize);
      assert starts == [start] + PyRange(start + batchSize, end + 1, batchSize).value;
      forall k | 0 < k < |ws| ensures starts[k] == ws[k].0 {
        assert starts[k] == PyRange(start + batchSize, end + 1, batchSize).value[k - 1];
        assert ws[k] == ws[1..][k - 1];
      }
    }
  }

  /** The batch starts as written, for any batch size: `range(start, end + 1, batch_size)`. */
  function BatchStartsAsWritten(start: int, end: int, batchSize: int): Result<seq<int>, RangeError>
  {
    PyRange(start, end + 1, batchSize)
  }

  /** With a negative batch size the read loop as written runs zero times,
      although the window to export is not empty (a zero batch size raises
      instead). `Windows` and `ExportRecords` reject both. */
  lemma NegativeBatchReadsNothing(start: int, end: int, batchSize: int)
    requires start <= end && batchSize < 0
    ensures BatchStartsAsWritten(start, end, batchSize) == Ok([])
    ensures |Interval(start, end)| > 0
  {
  }

  // ------------------------------------------------------------ what is exported

  datatype ExportError = BadBatchSize | Malformed | WriteFailed

  /**
   * The records `_export_data(count, batch_size)` collects: the entries from
   * `max(0, length - count)` to the tail, decoded in queue order (`length` is
   * -1 when the store cannot be reached, which selects nothing). Malformed
   * when one of them does not decode; a non-positive batch size is rejected.
   */
  function ExportRecords(q: seq<Entry>, online: bool, count: int, batchSize: int): (r: Result<seq<Record>, ExportError>)
    ensures r == Err(BadBatchSize) <==> batchSize <= 0
    ensures batchSize > 0 && !online ==> r == Ok([])
    ensures r == Err(Malformed) <==>
      batchSize > 0 && online && exists i :: Max(0, |q| - count) <= i < |q| && q[i].Garbage?
    ensures r.Ok? && online ==>
      |r.value| == Max(0, Min(count, |q|)) && EncodeAll(r.value) == q[|q| - |r.value|..]
  {
    if batchSize <= 0 then Err(BadBatchSize)
    else
      var length := if online then |q| else -1;
      var start := Max(0, length - count);
      if start > length - 1 then Ok([])
      else
        match DecodeAll(q[start..])
        case None => Err(Malformed)
        case Some(rs) => Ok(rs)
  }

  /** The `max_keep` newest entries: what trimming keeps (all of them when
      there are fewer, none when `max_keep <= 0`). */
  function KeepNewest(q: seq<Entry>, maxKeep: int): (kept: seq<Entry>)
    ensures |kept| == Max(0, Min(maxKeep, |q|))
    ensures kept == q[..|kept|]
  {
    q[..Max(0, Min(maxKeep, |q|))]
  }

  /** `_trim_queue` as written: `LTRIM queue 0 max_keep-1`. */
  function TrimAsWritten(q: seq<Entry>, maxKeep: int): seq<Entry>
  {
    RangeOf(q, 0, maxKeep - 1)
  }

  /** For `max_keep >= 1` the LTRIM keeps exactly the newest entries. */
  lemma TrimAsWrittenAgrees(q: seq<Entry>, maxKeep: int)
    requires maxKeep >= 1
    ensures TrimAsWritten(q, maxKeep) == KeepNewest(q, maxKeep)
  {
    RangeFromHead(q, maxKeep);
  }

  /** For `max_keep = 0` it is `LTRIM queue 0 -1`, which keeps the whole
      list: the records just exported stay queued and are exported again. */
  lemma TrimAsWrittenKeepsAllAtZero(q: seq<Entry>)
    requires |q| > 0
    ensures TrimAsWritten(q, 0) == q && KeepNewest(q, 0) == []
  {
    RangeZeroCountSelectsAll(q);
  }

  /** For a negative `max_keep` it is `LTRIM queue 0 max_keep-1`, which
      drops only the `-max_keep` oldest entries, although the drain exported
      every entry (and the corrected trim keeps none). */
  lemma TrimAsWrittenBelowZero(q: seq<Entry>, maxKeep: int)
    requires maxKeep < 0 && |q| + maxKeep > 0
    ensures TrimAsWritten(q, maxKeep) == q[..|q| + maxKeep] && KeepNewest(q, maxKeep) == []
  {
  }

  /**
   * The drain loses nothing and duplicates nothing: with the store up and
   * every entry well formed, the kept entries followed by the exported
   * records (encoded again) are exactly the queue before the drain.
   */
  lemma DrainSplitsQueue(q: seq<Entry>, maxKeep: int, batchSize: int)
    requires 0 <= maxKeep < |q| && batchSize > 0
    requires forall i :: 0 <= i < |q| ==> q[i].Encoded?
    ensures ExportRecords(q, true, |q| - maxKeep, batchSize).Ok?
    ensures |ExportRecords(q, true, |q| - maxKeep, batchSize).value| == |q| - maxKeep
    ensures KeepNewest(q, maxKeep) + EncodeAll(ExportRecords(q, true, |q| - maxKeep, batchSize).value) == q
  {
    var tail := q[maxKeep..];
    assert forall i :: 0 <= i < |tail| ==> tail[i].Encoded?;
    var rs := DecodeAll(tail).value;
    assert EncodeAll(rs) == tail;
    assert q[..maxKeep] + tail == q;
  }

  /** Where the drain's file goes: the parquet file, or the JSON fallback when
      `to_parquet` raises, or the JSON file; None when the write raises. */
  function DrainTarget(parquet: bool, parquetWritable: bool, writable: bool, now: DateTime): Option<(string, Layout)>
    requires ValidNow(now)
  {
    if parquet && parquetWritable then Some((DrainFileName(now, true), Columnar))
    else if writable then Some((DrainFileName(now, false), Envelope(now)))
    else None
  }

  /** The statistics `export_and_trim` returns. */
  datatype DrainStats = DrainStats(before: int, exported: int, after: int, file: Option<string>)

  /**
   * What `export_and_trim(max_keep, batch_size)` does, from the queue `q`,
   * counters `c` and files `f` before to `q1`, `c1`, `f1` after, with the
   * drain file going to `target` in the directory at `path`. At or under
   * `max_keep` nothing changes. Otherwise the oldest `length - max_keep`
   * entries are written first, and only when that write happened is the
   * queue trimmed to its newest `max_keep` and the counters rebuilt from
   * what is kept; a failed export changes nothing.
   */
  predicate ExportedThenTrimmed(q: seq<Entry>, c: map<string, int>, f: map<string, ArchiveFile>, online: bool,
                                maxKeep: int, batchSize: int, target: Option<(string, Layout)>, path: string,
                                stats: DrainStats, q1: seq<Entry>, c1: map<string, int>, f1: map<string, ArchiveFile>)
  {
    var ql := if online then |q| else -1;
    stats.before == ql
    && (ql <= maxKeep ==>
          stats == DrainStats(ql, 0, ql, None) && q1 == q && c1 == c && f1 == f)
    && (ql > maxKeep ==>
          var recs := ExportRecords(q, online, ql - maxKeep, batchSize);
          if recs.Err? || target.None? then
            stats == DrainStats(ql, 0, 0, None) && q1 == q && c1 == c && f1 == f
          else
            f1 == f[target.value.0 := ArchiveFile(target.value.1, recs.value)]
            && stats.exported == ql - maxKeep && stats.file == Some(Join(path, target.value.0))
            && if online then
                 var kept := KeepNewest(q, maxKeep);
                 q1 == kept && stats.after == |kept|
                 && c1 == (if |kept| > 0 then Reconciled(c, kept) else c)
               else
                 q1 == q && c1 == c && stats.after == 0)
  }

  // ------------------------------------------------------------ per-source grouping

  /** The key `export_by_source` groups under: the raw `source` value, or
      "unknown" when the field is absent (`item.get('source', 'unknown')`). */
  function GroupKey(r: Record): (k: Value)
    ensures ("source" !in r || Truthy(r["source"])) ==> Render(k) == SourceOf(r)
  {
    if "source" in r then r["source"] else Str(Unknown)
  }

  /** The records of group `v`, in queue order. */
  function Group(items: seq<Record>, v: Value): (g: seq<Record>)
    ensures |g| <= |items|
    ensures forall k :: 0 <= k < |g| ==> GroupKey(g[k]) == v
  {
    if items == [] then []
    else
      var front := Group(items[..|items| - 1], v);
      if GroupKey(items[|items| - 1]) == v then front + [items[|items| - 1]] else front
  }

  /** Every record belongs to exactly one group: group sizes are the key counts. */
  lemma {:induction false} GroupSize(items: seq<Record>, v: Value)
    ensures |Group(items, v)| == multiset(Keys(items))[v]
  {
    if items != [] {
      GroupSize(items[..|items| - 1], v);
      assert Keys(items) == Keys(items[..|items| - 1]) + [GroupKey(items[|items| - 1])];
    }
  }

  function Keys(items: seq<Record>): (ks: seq<Value>)
    ensures |ks| == |items| && forall k :: 0 <= k < |items| ==> ks[k] == GroupKey(items[k])
  {
    seq(|items|, k requires 0 <= k < |items| => GroupKey(items[k]))
  }

  /** `data_list[max_per_source:]`, Python slicing included (a negative bound
      counts from the end). */
  function Overflow(g: seq<Record>, maxPerSource: int): (o: seq<Record>)
    ensures |o| <= |g| && g[..|g| - |o|] + o == g
    ensures |o| == if maxPerSource >= 0 then Max(0, |g| - maxPerSource) else Min(|g|, -maxPerSource)
  {
    if maxPerSource >= 0 then g[Min(maxPerSource, |g|)..] else g[Max(0, |g| + maxPerSource)..]
  }

  /** What a successful `export_by_source` reports: for every group larger
      than `max_per_source`, the number of records past the first
      `max_per_source`; smaller groups are absent. */
  function OverflowCounts(items: seq<Record>, maxPerSource: int): (m: map<Value, nat>)
    ensures forall v :: v in m <==> v in Keys(items) && |Group(items, v)| > maxPerSource
    ensures forall v :: v in m ==> m[v] == |Overflow(Group(items, v), maxPerSource)|
  {
    map v | v in Keys(items) && |Group(items, v)| > maxPerSource :: |Overflow(Group(items, v), maxPerSource)|
  }

  /** Distinct values in order of first appearance, as dict insertion orders them. */
  function FirstSeen(ks: seq<Value>): (order: seq<Value>)
    ensures forall v :: v in order <==> v in ks
    ensures forall i, j :: 0 <= i < j < |order| ==> order[i] != order[j]
  {
    if ks == [] then []
    else
      var front := FirstSeen(ks[..|ks| - 1]);
      if ks[|ks| - 1] in front then front else front + [ks[|ks| - 1]]
  }

  /** `FirstSeen` keeps the order of first appearance: wherever a later key
      occurs, every key before it in the order has already occurred. */
  lemma FirstSeenOrder(ks: seq<Value>)
    ensures var order := FirstSeen(ks);
      forall i, j, k :: 0 <= i < j < |order| && 0 <= k < |ks| && ks[k] == order[j] ==> order[i] in ks[..k]
  {
    var order := FirstSeen(ks);
    forall i, j, k | 0 <= i < j < |order| && 0 <= k < |ks| && ks[k] == order[j]
      ensures order[i] in ks[..k]
    {
      FirstSeenOrderAt(ks, i, j, k);
    }
  }

  lemma {:induction false} FirstSeenOrderAt(ks: seq<Value>, i: int, j: int, k: int)
    requires 0 <= i < j < |FirstSeen(ks)| && 0 <= k < |ks| && ks[k] == FirstSeen(ks)[j]
    ensures FirstSeen(ks)[i] in ks[..k]
  {
    var front, x := ks[..|ks| - 1], ks[|ks| - 1];
    var of, order := FirstSeen(front), FirstSeen(ks);
    assert order == if x in of then of else of + [x];
    assert order[i] == of[i];
    if k < |front| {
      assert ks[k] == front[k] && ks[..k] == front[..k] && front[k] in front;
      if j < |of| {
        FirstSeenOrderAt(front, i, j, k);
      }
    } else {
      assert ks[..k] == front;
    }
  }

  // ------------------------------------------------------------ the drain

  /** One more window read after `start..i` decoded to `data`: a window that
      does not decode spoils the whole export, one that does extends `data`. */
  lemma WindowStep(q: seq<Entry>, start: int, i: int, stop: int, data: seq<Record>)
    requires 0 <= start <= i <= stop < |q|
    requires DecodeAll(q[start..i]) == Some(data)
    ensures DecodeAll(q[i..stop + 1]).None? ==> DecodeAll(q[start..]).None?
    ensures DecodeAll(q[i..stop + 1]).Some? ==>
      DecodeAll(q[start..stop + 1]) == Some(data + DecodeAll(q[i..stop + 1]).value)
  {
    var w := q[i..stop + 1];
    if DecodeAll(w).None? {
      var k :| 0 <= k < |w| && !w[k].Encoded?;
      assert q[start..][i - start + k] == w[k];
    } else {
      assert q[start..stop + 1] == q[start..i] + w;
      DecodeAllAppend(q[start..i], w);
    }
  }

  class DataExporter {
    const client: RedisClient
    const dir: ExportDir
    const format: Format
    /** Whether pandas could be imported. */
    const hasPandas: bool

    /** `__init__`: the format is normalised; `configured` is what the
        configuration file names (json when it cannot be read). */
    constructor (client: RedisClient, dir: ExportDir, requested: Option<string>, configured: string, hasPandas: bool)
      ensures this.client == client && this.dir == dir && this.hasPandas == hasPandas
      ensures this.format == NormalizeFormat(requested, configured)
    {
      this.client := client;
      this.dir := dir;
      this.format := NormalizeFormat(requested, configured);
      this.hasPandas := hasPandas;
    }

    /**
     * `_export_data(count, batch_size)`: read the oldest `count` entries in
     * LRANGE batches, decode them and write one file. Returns the file's
     * path; an error, and no file, when an entry does not decode, the batch
     * size is not positive, or the write raises. With the store down the
     * length reads as -1, nothing is selected, and an empty file is written.
     */
    method ExportData(count: int, batchSize: int, now: DateTime) returns (r: Result<string, ExportError>)
      requires ValidNow(now)
      modifies dir`files
      ensures var recs := ExportRecords(client.queue, client.online, count, batchSize);
        var target := DrainTarget(format == Parquet && hasPandas, dir.parquetWritable, dir.writable, now);
        if recs.Ok? && target.Some? then
          r == Ok(Join(dir.path, target.value.0))
          && dir.files == old(dir.files)[target.value.0 := ArchiveFile(target.value.1, recs.value)]
        else r.Err? && dir.files == old(dir.files)
    {
      if batchSize <= 0 { return Err(BadBatchSize); }
      var parquet := format == Parquet && hasPandas;
      var name := DrainFileName(now, parquet);
      var data := ReadOldest(count, batchSize);
      if data.Err? { return Err(data.error); }
      var ok: bool;
      if parquet {
        ok := dir.Write(name, ArchiveFile(Columnar, data.value));
        if !ok {
          name := DrainFileName(now, false);
          ok := dir.Write(name, ArchiveFile(Envelope(now), data.value));
        }
      } else {
        ok := dir.Write(name, ArchiveFile(Envelope(now), data.value));
      }
      if !ok { return Err(WriteFailed); }
      r := Ok(Join(dir.path, name));
    }

    /** The read loop of `_export_data`: one LRANGE per window, each reply
        decoded and appended. Changes nothing. */
    method ReadOldest(count: int, batchSize: int) returns (r: Result<seq<Record>, ExportError>)
      requires batchSize > 0
      ensures r == ExportRecords(client.queue, client.online, count, batchSize)
    {
      var length := client.GetQueueLength();
      var start := Max(0, length - count);
      var end := length - 1;
      ghost var q := client.queue;
      if start > end { return Ok([]); }
      assert client.online && 0 <= start <= end == |q| - 1;
      var data: seq<Record> := [];
      var i := start;
      while i <= end
        invariant start <= i
        invariant DecodeAll(q[start..Min(i, end + 1)]) == Some(data)
        decreases end - i
      {
        var stop := Min(end, i + batchSize - 1);
        var decoded := ReadWindow(start, i, stop, data);
        if decoded.None? { return Err(Malformed); }
        data := data + decoded.value;
        i := i + batchSize;
        assert Min(i, end + 1) == stop + 1;
      }
      assert q[start..Min(i, end + 1)] == q[start..];
      r := Ok(data);
    }

    /** One LRANGE `i..stop` of the read loop, decoded. Changes nothing. */
    method ReadWindow(start: int, i: int, stop: int, ghost data: seq<Record>) returns (decoded: Option<seq<Record>>)
      requires client.online && 0 <= start <= i <= stop < |client.queue|
      requires DecodeAll(client.queue[start..i]) == Some(data)
      ensures decoded.None? ==> DecodeAll(client.queue[start..]).None?
      ensures decoded.Some? ==> DecodeAll(client.queue[start..stop + 1]) == Some(data + decoded.value)
    {
      var batch := client.Range(i, stop);
      RangeInside(client.queue, i, stop);
      WindowStep(client.queue, start, i, stop, data);
      decoded := DecodeAll(batch.value);
    }

    /** `_trim_queue(max_keep)`: keep the `max_keep` newest entries. LTRIM
        `0 max_keep-1` for `max_keep >= 1`; the list is emptied otherwise
        (corrected from the source, see `TrimAsWrittenKeepsAllAtZero`). */
    method TrimQueue(maxKeep: int) returns (ok: bool)
      modifies client`queue
      ensures ok == client.online
      ensures client.queue == if ok then KeepNewest(old(client.queue), maxKeep) else old(client.queue)
    {
      if maxKeep <= 0 {
        ok := client.Delete();
      } else {
        RangeFromHead(client.queue, maxKeep);
        ok := client.Trim(0, maxKeep - 1);
      }
    }

    /**
     * `export_and_trim(max_keep, batch_size)`. Nothing happens while the
     * queue holds at most `max_keep` entries. Otherwise the oldest
     * `length - max_keep` entries are exported first; only if that succeeds
     * is the queue trimmed to its newest `max_keep` entries and the counters
     * rebuilt from what is left.
     */
    method ExportAndTrim(maxKeep: int, batchSize: int, now: DateTime) returns (stats: DrainStats)
      requires ValidNow(now)
      modifies client`queue, client`counters, dir`files
      ensures ExportedThenTrimmed(old(client.queue), old(client.counters), old(dir.files), client.online,
                                  maxKeep, batchSize,
                                  DrainTarget(format == Parquet && hasPandas, dir.parquetWritable, dir.writable, now),
                                  dir.path, stats, client.queue, client.counters, dir.files)
    {
      stats := DrainStats(0, 0, 0, None);
      var ql := client.GetQueueLength();
      stats := stats.(before := ql);
      if ql <= maxKeep {
        stats := stats.(after := ql);
        return;
      }
      stats := Drain(ql, maxKeep, batchSize, now);
    }

    /** `export_and_trim` past the length check: export the `ql - maxKeep`
        oldest entries, and only once they are written trim the queue to the
        newest `maxKeep` and rebuild the per-source counters. */
    method Drain(ql: int, maxKeep: int, batchSize: int, now: DateTime) returns (stats: DrainStats)
      requires ValidNow(now)
      requires ql == (if client.online then |client.queue| else -1) && ql > maxKeep
      modifies client`queue, client`counters, dir`files
      ensures var recs := ExportRecords(old(client.queue), client.online, ql - maxKeep, batchSize);
        var target := DrainTarget(format == Parquet && hasPandas, dir.parquetWritable, dir.writable, now);
        if recs.Err? || target.None? then
          stats == DrainStats(ql, 0, 0, None)
          && client.queue == old(client.queue) && client.counters == old(client.counters)
          && dir.files == old(dir.files)
        else
          dir.files == old(dir.files)[target.value.0 := ArchiveFile(target.value.1, recs.value)]
          && stats.before == ql && stats.exported == ql - maxKeep && stats.file == Some(Join(dir.path, target.value.0))
          && if client.online then
               var kept := KeepNewest(old(client.queue), maxKeep);
               client.queue == kept && stats.after == |kept|
               && client.counters == (if |kept| > 0 then Reconciled(old(client.counters), kept)
                                      else old(client.counters))
             else
               client.queue == old(client.queue) && client.counters == old(client.counters)
               && stats.after == 0
    {
      stats := DrainStats(ql, 0, 0, None);
      var toExport := ql - maxKeep;
      var exported := ExportData(toExport, batchSize, now);
      if exported.Err? { return; }
      stats := stats.(file := Some(exported.value), exported := toExport);
      var trimmed := TrimQueue(maxKeep);
      if !trimmed { return; }
      ghost var kept := client.queue;
      var scanned, counts := client.RebuildSourceCounts(Some(maxKeep));
      assert |kept| > 0 ==> ScanSize(|kept|, Some(maxKeep)) == |kept|;
      assert kept[..|kept|] == kept;
      var after := client.GetQueueLength();
      stats := stats.(after := after);
    }

    /**
     * `export_by_source(max_per_source)`: peek at the first 100000 entries,
     * group the records by their raw `source` value, and for each group
     * larger than `max_per_source` write the records past the first
     * `max_per_source` to `data_{source}_{ts}.json`. Returns how many were
     * written per group. The queue is left as it is. A failing write ends
     * the loop and returns what was reported so far.
     */
    method ExportBySource(maxPerSource: int, now: DateTime) returns (stats: map<Value, nat>)
      requires ValidNow(now)
      modifies dir`files
      ensures var items := PeekResult(client.queue, client.online);
        dir.writable ==> stats == OverflowCounts(items, maxPerSource)
      ensures var items := PeekResult(client.queue, client.online);
        dir.writable ==> dir.files == SourceWrites(old(dir.files), Groups(items), FirstSeen(Keys(items)), maxPerSource, now)
      ensures dir.writable ==> forall v :: v in stats ==> HasSourceFile(dir.files, v, now)
      ensures !dir.writable ==> stats == map[] && dir.files == old(dir.files)
      ensures forall n :: n in old(dir.files) ==> n in dir.files
    {
      var items := client.PeekData(100000);
      var bySource, order := GroupBySource(items);
      assert bySource == Groups(items);
      ReportedIsOverflowCounts(items, bySource, maxPerSource);
      stats := ExportGroups(bySource, order, maxPerSource, now);
    }

    /** The write loop of `export_by_source`, over the groups in the order
        they were first seen. */
    method ExportGroups(bySource: map<Value, seq<Record>>, order: seq<Value>, maxPerSource: int, now: DateTime)
      returns (stats: map<Value, nat>)
      requires ValidNow(now)
      requires forall v :: v in order ==> v in bySource
      modifies dir`files
      ensures dir.writable ==> stats == Reported(bySource, order, maxPerSource)
      ensures dir.writable ==> dir.files == SourceWrites(old(dir.files), bySource, order, maxPerSource, now)
      ensures dir.writable ==> forall v :: v in stats ==> HasSourceFile(dir.files, v, now)
      ensures !dir.writable ==> stats == map[] && dir.files == old(dir.files)
      ensures forall n :: n in old(dir.files) ==> n in dir.files
    {
      stats := map[];
      for j := 0 to |order|
        invariant !dir.writable ==> stats == map[] && dir.files == old(dir.files)
        invariant dir.writable ==> stats == Reported(bySource, order[..j], maxPerSource)
        invariant dir.writable ==> dir.files == SourceWrites(old(dir.files), bySource, order[..j], maxPerSource, now)
        invariant forall v :: v in stats ==> HasSourceFile(dir.files, v, now)
        invariant forall n :: n in old(dir.files) ==> n in dir.files
      {
        var source := order[j];
        var group := bySource[source];
        WriteLoopStep(old(dir.files), bySource, order, j, maxPerSource, now);
        if |group| > maxPerSource {
          var name := SourceFileName(Render(source), now);
          var file := SourceFile(source, group, maxPerSource, now);
          ghost var before := dir.files;
          var ok := dir.Write(name, file);
          if !ok { return; }
          forall v | v in stats ensures HasSourceFile(dir.files, v, now) {
            KeepsSourceFile(before, Render(source), file, v, now);
          }
          stats := stats[source := |Overflow(group, maxPerSource)|];
        }
      }
      assert order[..|order|] == order;
    }
  }

  /** The records of each group, by key. */
  function Groups(items: seq<Record>): (m: map<Value, seq<Record>>)
    ensures forall v :: v in m <==> v in Keys(items)
  {
    map v | v in Keys(items) :: Group(items, v)
  }

  /** The file group `v`'s overflow is written to. */
  function SourceFile(v: Value, g: seq<Record>, maxPerSource: int, now: DateTime): ArchiveFile
  {
    ArchiveFile(SourceEnvelope(now, Render(v)), Overflow(g, maxPerSource))
  }

  /** The directory after the write loop over `order`: the overflow of every
      group larger than `max_per_source` written in turn, a later file
      replacing an earlier one of the same name. */
  function SourceWrites(files: map<string, ArchiveFile>, groups: map<Value, seq<Record>>, order: seq<Value>,
                        maxPerSource: int, now: DateTime): map<string, ArchiveFile>
    requires ValidNow(now)
    requires forall v :: v in order ==> v in groups
  {
    if order == [] then files
    else
      var f := SourceWrites(files, groups, order[..|order| - 1], maxPerSource, now);
      var v := order[|order| - 1];
      if |groups[v]| > maxPerSource then f[SourceFileName(Render(v), now) := SourceFile(v, groups[v], maxPerSource, now)]
      else f
  }

  /** One more turn of the write loop: group `order[j]` is written and
      reported when it is larger than `max_per_source`. */
  lemma WriteLoopStep(files: map<string, ArchiveFile>, groups: map<Value, seq<Record>>, order: seq<Value>,
                      j: nat, maxPerSource: int, now: DateTime)
    requires ValidNow(now) && j < |order| && forall v :: v in order ==> v in groups
    ensures forall v :: v in order[..j] ==> v in groups
    ensures forall v :: v in order[..j + 1] ==> v in groups
    ensures var f, m, v := SourceWrites(files, groups, order[..j], maxPerSource, now),
                           Reported(groups, order[..j], maxPerSource), order[j];
      && SourceWrites(files, groups, order[..j + 1], maxPerSource, now)
           == (if |groups[v]| > maxPerSource then f[SourceFileName(Render(v), now) := SourceFile(v, groups[v], maxPerSource, now)] else f)
      && Reported(groups, order[..j + 1], maxPerSource)
           == (if |groups[v]| > maxPerSource then m[v := |Overflow(groups[v], maxPerSource)|] else m)
  {
    assert order[..j + 1][..j] == order[..j];
  }

  /** The write loop leaves every file alone that is not the file of a group it reports. */
  lemma {:induction false} SourceWritesElsewhere(files: map<string, ArchiveFile>, groups: map<Value, seq<Record>>,
                                                 order: seq<Value>, maxPerSource: int, now: DateTime, n: string)
    requires ValidNow(now) && forall v :: v in order ==> v in groups
    requires forall v :: v in order && |groups[v]| > maxPerSource ==> n != SourceFileName(Render(v), now)
    ensures var r := SourceWrites(files, groups, order, maxPerSource, now);
      (n in r <==> n in files) && (n in files ==> r[n] == files[n])
  {
    if order != [] {
      var front := order[..|order| - 1];
      assert forall v :: v in front ==> v in order;
      SourceWritesElsewhere(files, groups, front, maxPerSource, now, n);
    }
  }

  /** A reported group's file holds exactly its overflow, unless a group
      later in the loop renders to the same name and replaced it. */
  lemma {:induction false} SourceWritesHold(files: map<string, ArchiveFile>, groups: map<Value, seq<Record>>,
                                            order: seq<Value>, maxPerSource: int, now: DateTime, v: Value)
    requires ValidNow(now) && forall u :: u in order ==> u in groups
    requires v in order && |groups[v]| > maxPerSource
    requires forall u :: u in order && Render(u) == Render(v) ==> u == v
    ensures var r, name := SourceWrites(files, groups, order, maxPerSource, now), SourceFileName(Render(v), now);
      name in r && r[name] == SourceFile(v, groups[v], maxPerSource, now)
  {
    var front, last := order[..|order| - 1], order[|order| - 1];
    if last != v {
      assert order == front + [last];
      assert v in front;
      assert forall u :: u in front ==> u in order;
      SourceWritesHold(files, groups, front, maxPerSource, now, v);
      if |groups[last]| > maxPerSource && SourceFileName(Render(last), now) == SourceFileName(Render(v), now) {
        SourceFileNameInjective(Render(last), Render(v), now);
      }
    }
  }

  /**
   * What `export_by_source` leaves on disk: for every reported source whose
   * value no other source renders to, its file holds the records past its
   * first `max_per_source`; every file other than a reported source's is
   * untouched.
   */
  lemma SourceFilesHoldOverflow(files: map<string, ArchiveFile>, items: seq<Record>, maxPerSource: int,
                                now: DateTime, v: Value, n: string)
    requires ValidNow(now)
    ensures var r := SourceWrites(files, Groups(items), FirstSeen(Keys(items)), maxPerSource, now);
      && (v in OverflowCounts(items, maxPerSource) && (forall u :: u in Keys(items) && Render(u) == Render(v) ==> u == v) ==>
            var name := SourceFileName(Render(v), now);
            name in r && r[name].records == Overflow(Group(items, v), maxPerSource))
      && ((forall u :: u in OverflowCounts(items, maxPerSource) ==> n != SourceFileName(Render(u), now)) ==>
            (n in r <==> n in files) && (n in files ==> r[n] == files[n]))
  {
    var order := FirstSeen(Keys(items));
    var groups := Groups(items);
    if v in OverflowCounts(items, maxPerSource) && (forall u :: u in Keys(items) && Render(u) == Render(v) ==> u == v) {
      SourceWritesHold(files, groups, order, maxPerSource, now, v);
    }
    if forall u :: u in OverflowCounts(items, maxPerSource) ==> n != SourceFileName(Render(u), now) {
      SourceWritesElsewhere(files, groups, order, maxPerSource, now, n);
    }
  }

  /** The per-source file of group `v` exists and is a source envelope for `v`. */
  predicate HasSourceFile(files: map<string, ArchiveFile>, v: Value, now: DateTime)
    requires ValidNow(now)
  {
    var name := SourceFileName(Render(v), now);
    name in files && files[name].layout == SourceEnvelope(now, Render(v))
  }

  /** A later per-source write never takes away an earlier group's file:
      equal file names mean equal rendered sources. */
  lemma KeepsSourceFile(files: map<string, ArchiveFile>, s: string, f: ArchiveFile, v: Value, now: DateTime)
    requires ValidNow(now) && HasSourceFile(files, v, now) && f.layout == SourceEnvelope(now, s)
    ensures HasSourceFile(files[SourceFileName(s, now) := f], v, now)
  {
    if SourceFileName(s, now) == SourceFileName(Render(v), now) {
      SourceFileNameInjective(s, Render(v), now);
    }
  }

  /** Distinct sources get distinct per-source file names. */
  lemma SourceFileNameInjective(a: string, b: string, now: DateTime)
    requires ValidNow(now) && SourceFileName(a, now) == SourceFileName(b, now)
    ensures a == b
  {
    var na, nb := SourceFileName(a, now), SourceFileName(b, now);
    assert |a| == |b|;
    assert a == na[5..5 + |a|] && b == nb[5..5 + |b|];
  }

  /** The report the write loop builds over `order`: each group larger than
      `max_per_source` with its overflow count. */
  function Reported(groups: map<Value, seq<Record>>, order: seq<Value>, maxPerSource: int): map<Value, nat>
    requires forall v :: v in order ==> v in groups
  {
    if order == [] then map[]
    else
      var m := Reported(groups, order[..|order| - 1], maxPerSource);
      var v := order[|order| - 1];
      if |groups[v]| > maxPerSource then m[v := |Overflow(groups[v], maxPerSource)|] else m
  }

  /** Which groups the loop reports, and with what count. */
  lemma {:induction false} ReportedShape(groups: map<Value, seq<Record>>, order: seq<Value>, maxPerSource: int)
    requires forall v :: v in order ==> v in groups
    ensures forall v :: v in Reported(groups, order, maxPerSource) <==> v in order && |groups[v]| > maxPerSource
    ensures forall v :: v in Reported(groups, order, maxPerSource) ==>
      Reported(groups, order, maxPerSource)[v] == |Overflow(groups[v], maxPerSource)|
  {
    if order != [] {
      var front := order[..|order| - 1];
      ReportedShape(groups, front, maxPerSource);
      assert order == front + [order[|order| - 1]];
    }
  }

  /** Run over all groups, the loop reports exactly `OverflowCounts`. */
  lemma ReportedIsOverflowCounts(items: seq<Record>, bySource: map<Value, seq<Record>>, maxPerSource: int)
    requires forall v :: v in bySource <==> v in Keys(items)
    requires forall v :: v in bySource ==> bySource[v] == Group(items, v)
    ensures forall v :: v in FirstSeen(Keys(items)) ==> v in bySource
    ensures Reported(bySource, FirstSeen(Keys(items)), maxPerSource) == OverflowCounts(items, maxPerSource)
  {
    ReportedShape(bySource, FirstSeen(Keys(items)), maxPerSource);
  }

  /** The grouping loop of `export_by_source`: records appended to their
      group in queue order, groups remembered in order of first appearance. */
  method GroupBySource(items: seq<Record>) returns (bySource: map<Value, seq<Record>>, order: seq<Value>)
    ensures forall v :: v in bySource <==> v in Keys(items)
    ensures forall v :: v in bySource ==> bySource[v] == Group(items, v)
    ensures order == FirstSeen(Keys(items))
  {
    bySource := map[];
    order := [];
    for i := 0 to |items|
      invariant forall v :: v in bySource <==> v in Keys(items[..i])
      invariant forall v :: v in bySource ==> bySource[v] == Group(items[..i], v)
      invariant order == FirstSeen(Keys(items[..i]))
    {
      assert items[..i + 1] == items[..i] + [items[i]];
      var source := GroupKey(items[i]);
      GroupStep(items[..i], items[i], bySource);
      if source !in bySource {
        order := order + [source];
      }
      bySource := bySource[source := (if source in bySource then bySource[source] else []) + [items[i]]];
    }
    assert items[..|items|] == items;
  }

  /** One step of the grouping loop: appending `x` to the bucket of its
      source keeps the buckets equal to `Group`, and the source joins the
      order exactly when it is new. */
  lemma GroupStep(pre: seq<Record>, x: Record, m: map<Value, seq<Record>>)
    requires forall v :: v in m <==> v in Keys(pre)
    requires forall v :: v in m ==> m[v] == Group(pre, v)
    ensures var k := GroupKey(x);
      var m' := m[k := (if k in m then m[k] else []) + [x]];
      && (forall v :: v in m' <==> v in Keys(pre + [x]))
      && (forall v :: v in m' ==> m'[v] == Group(pre + [x], v))
      && FirstSeen(Keys(pre + [x])) == if k in m then FirstSeen(Keys(pre)) else FirstSeen(Keys(pre)) + [k]
  {
    var k := GroupKey(x);
    var m' := m[k := (if k in m then m[k] else []) + [x]];
    assert Keys(pre + [x]) == Keys(pre) + [k];
    forall v | v in m' ensures m'[v] == Group(pre + [x], v) {
      GroupSnoc(pre, x, v);
      if v !in m { GroupSize(pre, v); }
    }
    FirstSeenSnoc(Keys(pre), k);
  }

  lemma GroupSnoc(items: seq<Record>, x: Record, v: Value)
    ensures Group(items + [x], v) == if GroupKey(x) == v then Group(items, v) + [x] else Group(items, v)
  {
    assert (items + [x])[..|items|] == items;
  }

  lemma FirstSeenSnoc(ks: seq<Value>, k: Value)
    ensures FirstSeen(ks + [k]) == if k in FirstSeen(ks) then FirstSeen(ks) else FirstSeen(ks) + [k]
  {
    assert (ks + [k])[..|ks|] == ks;
  }

  /** What `peek_data` returns: the decoded queue (capped at 100000 entries),
      or nothing when the store is down or an entry does not decode. */
  function PeekResult(q: seq<Entry>, online: bool): seq<Record>
  {
    var d := DecodeAll(RangeOf(q, 0, 100000 - 1));
    if online && d.Some? then d.value else []
  }
}
