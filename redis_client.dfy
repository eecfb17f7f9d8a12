/**
 * The single write path into the shared queue (`RedisClient`): slim-mode
 * compaction, the soft per-source quota, single and batched pushes, and the
 * reconciliation scan that rebuilds the per-source counters.
 *
 * The store is in-memory state here: `queue` is the Redis list (index 0 is
 * the newest entry) and `counters` holds the per-source counter keys, indexed
 * by source name (the Redis key of source `s` is `CountKey(queueName, s)`,
 * which `CountKeyInjective` shows is one key per source). `online == false`
 * stands for a store that cannot be reached: every command then raises.
 *
 * The quota check and the push are two separate store calls and are not
 * atomic: under concurrent producers a source can overshoot its limit. The
 * model runs producers one after the other, so it shows the sequential
 * behaviour of this best-effort bound, not a hard cap.
 */
module Redis {
  import opened Common
  import opened Records
  import opened RedisList

  type Positive = n: int | n > 0 witness 1

  /** A configured quota fraction: a ratio, or a value `float()` rejects
      (or a YAML null), which both mean "no limit". */
  datatype Quota = Fraction(num: int, den: Positive) | NotNumeric

  const DefaultMaxKeep: int := 10000

  /** `f"{queue_name}:source_count:{source}"`. */
  function CountKey(queueName: string, source: string): string
  {
    queueName + ":source_count:" + source
  }

  /** Distinct sources have distinct counter keys. */
  lemma CountKeyInjective(queueName: string, a: string, b: string)
    requires CountKey(queueName, a) == CountKey(queueName, b)
    ensures a == b
  {
    var p := queueName + ":source_count:";
    assert CountKey(queueName, a)[|p|..] == a;
    assert CountKey(queueName, b)[|p|..] == b;
  }

  /** Python's `int()` of a quotient: truncation toward zero. */
  function TruncDiv(a: int, b: Positive): (q: int)
    ensures a >= 0 ==> 0 <= q && q * b <= a < (q + 1) * b
    ensures a < 0 ==> q <= 0 && (q - 1) * b < a <= q * b
  {
    if a >= 0 then a / b else -((-a) / b)
  }

  /**
   * `_quota_limit`: `int(max_keep * q)` for a source with a numeric quota;
   * None when there is no quota map, no entry for the source, or the entry
   * is not a number.
   */
  function QuotaLimit(quotas: map<string, Quota>, maxKeep: int, source: string): (r: Option<int>)
    ensures r.None? <==> source !in quotas || quotas[source].NotNumeric?
    ensures r.Some? && maxKeep * quotas[source].num >= 0 ==>
      var q := quotas[source];
      0 <= r.value && r.value * q.den <= maxKeep * q.num < (r.value + 1) * q.den
  {
    if |quotas| == 0 then None
    else if source !in quotas then None
    else
      match quotas[source]
      case NotNumeric => None
      case Fraction(n, d) => Some(TruncDiv(maxKeep * n, d))
  }

  /** A counter that was never set reads as 0 (`get(key) or 0`). */
  function Get(counters: map<string, int>, source: string): int
  {
    if source in counters then counters[source] else 0
  }

  /**
   * `_exceeds_quota`: a limit of None or 0 never rejects (`if not limit`);
   * a counter that cannot be read does not reject; otherwise reject once the
   * counter has reached the limit.
   */
  predicate Exceeds(quotas: map<string, Quota>, maxKeep: int, counters: map<string, int>,
                    online: bool, source: string)
    ensures Exceeds(quotas, maxKeep, counters, online, source) ==>
      online && source in quotas && quotas[source].Fraction?
  {
    var limit := QuotaLimit(quotas, maxKeep, source);
    limit.Some? && limit.value != 0 && online && Get(counters, source) >= limit.value
  }

  /**
   * The admission rule without the rounding: for a positive quota, a source
   * is rejected exactly when one more record would take its count past
   * `max_keep * q`.
   */
  lemma {:induction false} ExceedsIffNextPassesShare(quotas: map<string, Quota>, maxKeep: int,
                                                   counters: map<string, int>, source: string)
    requires source in quotas && quotas[source].Fraction?
    requires maxKeep * quotas[source].num >= quotas[source].den
    ensures Exceeds(quotas, maxKeep, counters, true, source) <==>
      (Get(counters, source) + 1) * quotas[source].den > maxKeep * quotas[source].num
  {
    var q := quotas[source];
    var share := maxKeep * q.num;
    var limit := QuotaLimit(quotas, maxKeep, source).value;
    var c := Get(counters, source);
    assert limit * q.den <= share < (limit + 1) * q.den;
    MulCancel(1, limit + 1, q.den);
    if c >= limit {
      MulMonotone(limit + 1, c + 1, q.den);
    } else {
      MulMonotone(c + 1, limit, q.den);
    }
  }

  lemma MulMonotone(a: int, b: int, d: Positive)
    requires a <= b
    ensures a * d <= b * d
  {
  }

  lemma MulCancel(a: int, b: int, d: Positive)
    requires a * d < b * d
    ensures a < b
  {
  }

  /** With `max_keep = 1000` and `reddit = 0.5`, a reddit count of 500 (or 600)
      rejects the next reddit record, 499 admits it, and other sources are
      unaffected. */
  lemma QuotaExample()
    ensures var quotas := map["reddit" := Fraction(1, 2)];
      && Exceeds(quotas, 1000, map["reddit" := 600], true, "reddit")
      && Exceeds(quotas, 1000, map["reddit" := 500], true, "reddit")
      && !Exceeds(quotas, 1000, map["reddit" := 499], true, "reddit")
      && !Exceeds(quotas, 1000, map["reddit" := 600], true, "twitter")
  {
    var quotas := map["reddit" := Fraction(1, 2)];
    assert QuotaLimit(quotas, 1000, "reddit") == Some(500);
  }

  /** `INCRBY counter delta` on a counter that may not exist yet. */
  function Bump(counters: map<string, int>, source: string, delta: int): (c: map<string, int>)
  {
    counters[source := Get(counters, source) + delta]
  }

  /** Every counter of `delta` raised by its amount; the others unchanged. */
  function AddAll(counters: map<string, int>, delta: map<string, nat>): (c: map<string, int>)
    ensures forall s :: s in c <==> s in counters || s in delta
    ensures forall s :: s in c ==> c[s] == Get(counters, s) + (if s in delta then delta[s] else 0)
  {
    map s | s in counters.Keys + delta.Keys :: Get(counters, s) + (if s in delta then delta[s] else 0)
  }

  function Reversed<T>(s: seq<T>): (r: seq<T>)
    ensures |r| == |s| && forall i :: 0 <= i < |s| ==> r[i] == s[|s| - 1 - i]
  {
    if s == [] then [] else [s[|s| - 1]] + Reversed(s[..|s| - 1])
  }

  // ------------------------------------------------------------ push_batch

  /** What the admission loop of `push_batch` produced: the entries queued on
      the pipeline with their sources, or the slimming of some record raised
      after `admitted` records had been queued. */
  datatype BatchPlan = Planned(entries: seq<Entry>, sources: seq<string>) | SlimRaised(admitted: nat)

  /** The record as it is stored: slimmed in slim mode (None if slimming
      raises, which only slim mode can do). It is counted under the source
      of the record it was made from. */
  function Prepare(slim: bool, data: Record): (r: Option<Record>)
    ensures r.None? ==> slim
    ensures r.Some? ==> SourceOf(r.value) == SourceOf(data)
  {
    if !slim then Some(data)
    else if Slim(data).Some? then SlimKeepsSource(data); Slim(data)
    else None
  }

  /**
   * The admission loop of `push_batch`, record by record, in list order.
   * Every quota check reads `counters` as they were before the batch, since
   * nothing is incremented until the pipeline has run.
   */
  function PlanBatch(batch: seq<Record>, slim: bool, quotas: map<string, Quota>, maxKeep: int,
                     counters: map<string, int>, online: bool): (p: BatchPlan)
    ensures p.Planned? ==> |p.entries| == |p.sources| <= |batch|
    ensures p.Planned? ==> forall i :: 0 <= i < |p.entries| ==>
      p.entries[i].Encoded? && SourceOf(p.entries[i].record) == p.sources[i]
      && !Exceeds(quotas, maxKeep, counters, online, p.sources[i])
    ensures p.SlimRaised? ==> slim && p.admitted < |batch|
  {
    if batch == [] then Planned([], [])
    else PlanStep(PlanBatch(batch[..|batch| - 1], slim, quotas, maxKeep, counters, online),
                  batch[|batch| - 1], slim, quotas, maxKeep, counters, online)
  }

  /** One iteration of the admission loop. */
  function PlanStep(p: BatchPlan, data: Record, slim: bool, quotas: map<string, Quota>, maxKeep: int,
                    counters: map<string, int>, online: bool): BatchPlan
  {
    match p
    case SlimRaised(_) => p
    case Planned(es, ss) =>
      match Prepare(slim, data)
      case None => SlimRaised(|es|)
      case Some(d) =>
        if Exceeds(quotas, maxKeep, counters, online, SourceOf(d)) then p
        else Planned(es + [Encode(d)], ss + [SourceOf(d)])
  }

  lemma PlanBatchPrefix(batch: seq<Record>, i: nat, slim: bool, quotas: map<string, Quota>, maxKeep: int,
                        counters: map<string, int>, online: bool)
    requires i < |batch|
    ensures PlanBatch(batch[..i + 1], slim, quotas, maxKeep, counters, online) ==
      PlanStep(PlanBatch(batch[..i], slim, quotas, maxKeep, counters, online), batch[i], slim, quotas, maxKeep, counters, online)
  {
    assert batch[..i + 1][..i] == batch[..i];
  }

  /** One record as `push_batch` admits it: its stored form, unless slimming
      raises or its source is over quota. */
  function AdmitOne(data: Record, slim: bool, quotas: map<string, Quota>, maxKeep: int,
                    counters: map<string, int>, online: bool): seq<Record>
  {
    match Prepare(slim, data)
    case None => []
    case Some(d) => if Exceeds(quotas, maxKeep, counters, online, SourceOf(d)) then [] else [d]
  }

  /**
   * The records a batch admits, read from its head: the stored form of every
   * record whose source passes the quota check against the pre-batch
   * counters, in batch order. A reference for `PlanBatch`, which builds
   * the same list from the other end (and gives up when a slim raises).
   */
  function Admitted(batch: seq<Record>, slim: bool, quotas: map<string, Quota>, maxKeep: int,
                    counters: map<string, int>, online: bool): (rs: seq<Record>)
    ensures |rs| <= |batch|
  {
    if batch == [] then []
    else AdmitOne(batch[0], slim, quotas, maxKeep, counters, online)
         + Admitted(batch[1..], slim, quotas, maxKeep, counters, online)
  }

  /** The sources records are counted under, in order. */
  function Sources(rs: seq<Record>): (ss: seq<string>)
    ensures |ss| == |rs| && forall i :: 0 <= i < |rs| ==> ss[i] == SourceOf(rs[i])
  {
    seq(|rs|, i requires 0 <= i < |rs| => SourceOf(rs[i]))
  }

  /** No record of the batch makes slimming raise. */
  predicate SlimsCleanly(batch: seq<Record>, slim: bool)
  {
    forall i :: 0 <= i < |batch| ==> Prepare(slim, batch[i]).Some?
  }

  lemma {:induction false} AdmittedSnoc(batch: seq<Record>, x: Record, slim: bool, quotas: map<string, Quota>,
                                        maxKeep: int, counters: map<string, int>, online: bool)
    ensures Admitted(batch + [x], slim, quotas, maxKeep, counters, online) ==
      Admitted(batch, slim, quotas, maxKeep, counters, online) + AdmitOne(x, slim, quotas, maxKeep, counters, online)
  {
    if batch == [] {
      assert [x][1..] == [];
    } else {
      assert (batch + [x])[1..] == batch[1..] + [x];
      AdmittedSnoc(batch[1..], x, slim, quotas, maxKeep, counters, online);
    }
  }

  /** A record is admitted exactly when some record of the batch is stored
      as it and its source passes the quota check. */
  lemma {:induction false} AdmittedMembers(batch: seq<Record>, d: Record, slim: bool, quotas: map<string, Quota>,
                                           maxKeep: int, counters: map<string, int>, online: bool)
    ensures d in Admitted(batch, slim, quotas, maxKeep, counters, online) <==>
      exists i :: 0 <= i < |batch| && Prepare(slim, batch[i]) == Some(d)
                  && !Exceeds(quotas, maxKeep, counters, online, SourceOf(d))
  {
    if batch != [] {
      AdmittedMembers(batch[1..], d, slim, quotas, maxKeep, counters, online);
      if exists i :: 0 <= i < |batch| && Prepare(slim, batch[i]) == Some(d)
                     && !Exceeds(quotas, maxKeep, counters, online, SourceOf(d)) {
        var i :| 0 <= i < |batch| && Prepare(slim, batch[i]) == Some(d)
                 && !Exceeds(quotas, maxKeep, counters, online, SourceOf(d));
        if i > 0 { assert batch[1..][i - 1] == batch[i]; }
      }
      if d in Admitted(batch[1..], slim, quotas, maxKeep, counters, online) {
        var i :| 0 <= i < |batch[1..]| && Prepare(slim, batch[1..][i]) == Some(d)
                 && !Exceeds(quotas, maxKeep, counters, online, SourceOf(d));
        assert batch[i + 1] == batch[1..][i];
      }
    }
  }

  /**
   * The admission loop admits exactly the records `Admitted` names: the
   * batch is planned iff no slim raises, and then the queued entries are
   * the encodings of the admitted records, in batch order, each paired with
   * its own source.
   */
  lemma {:induction false} PlanBatchAdmits(batch: seq<Record>, slim: bool, quotas: map<string, Quota>,
                                           maxKeep: int, counters: map<string, int>, online: bool)
    ensures var p := PlanBatch(batch, slim, quotas, maxKeep, counters, online);
      var rs := Admitted(batch, slim, quotas, maxKeep, counters, online);
      && (p.Planned? <==> SlimsCleanly(batch, slim))
      && (p.Planned? ==> p.entries == EncodeAll(rs) && p.sources == Sources(rs))
  {
    if batch != [] {
      var front, x := batch[..|batch| - 1], batch[|batch| - 1];
      assert batch == front + [x];
      PlanBatchAdmits(front, slim, quotas, maxKeep, counters, online);
      AdmittedSnoc(front, x, slim, quotas, maxKeep, counters, online);
      SlimsCleanlySnoc(front, x, slim);
      PlanStepAdmits(PlanBatch(front, slim, quotas, maxKeep, counters, online),
                     Admitted(front, slim, quotas, maxKeep, counters, online), x, slim, quotas, maxKeep, counters, online);
    }
  }

  lemma SlimsCleanlySnoc(front: seq<Record>, x: Record, slim: bool)
    ensures SlimsCleanly(front + [x], slim) <==> SlimsCleanly(front, slim) && Prepare(slim, x).Some?
  {
    var b := front + [x];
    if SlimsCleanly(b, slim) {
      forall i | 0 <= i < |front| ensures Prepare(slim, front[i]).Some? {
        assert b[i] == front[i];
      }
      assert b[|front|] == x;
    }
  }

  /** One admission step extends the admitted list by what `AdmitOne` admits. */
  lemma PlanStepAdmits(pf: BatchPlan, rf: seq<Record>, x: Record, slim: bool, quotas: map<string, Quota>,
                       maxKeep: int, counters: map<string, int>, online: bool)
    requires pf.Planned? ==> pf.entries == EncodeAll(rf) && pf.sources == Sources(rf)
    ensures var p := PlanStep(pf, x, slim, quotas, maxKeep, counters, online);
      var rs := rf + AdmitOne(x, slim, quotas, maxKeep, counters, online);
      && (p.Planned? <==> pf.Planned? && Prepare(slim, x).Some?)
      && (p.Planned? ==> p.entries == EncodeAll(rs) && p.sources == Sources(rs))
  {
    var one := AdmitOne(x, slim, quotas, maxKeep, counters, online);
    assert EncodeAll(rf + one) == EncodeAll(rf) + EncodeAll(one);
    assert Sources(rf + one) == Sources(rf) + Sources(one);
  }

  /** Once a record's slimming raises, the rest of the batch is never looked at. */
  lemma {:induction false} SlimRaisedPersists(batch: seq<Record>, i: nat, slim: bool, quotas: map<string, Quota>,
                                              maxKeep: int, counters: map<string, int>, online: bool)
    requires i <= |batch|
    requires PlanBatch(batch[..i], slim, quotas, maxKeep, counters, online).SlimRaised?
    ensures PlanBatch(batch, slim, quotas, maxKeep, counters, online) ==
            PlanBatch(batch[..i], slim, quotas, maxKeep, counters, online)
    decreases |batch| - i
  {
    if i < |batch| {
      PlanBatchPrefix(batch, i, slim, quotas, maxKeep, counters, online);
      SlimRaisedPersists(batch, i + 1, slim, quotas, maxKeep, counters, online);
    } else {
      assert batch[..i] == batch;
    }
  }

  /** One batch can overshoot a limit: with a limit of 1 and a zero counter,
      three records of the same source are all admitted. */
  lemma BatchOvershootsLimit()
    ensures var r := map["source" := Str("reddit")];
      var p := PlanBatch([r, r, r], false, map["reddit" := Fraction(1, 10)], 10, map[], true);
      p.Planned? && |p.entries| == 3
  {
    var r := map["source" := Str("reddit")];
    var quotas := map["reddit" := Fraction(1, 10)];
    assert SourceOf(r) == "reddit";
    assert !Exceeds(quotas, 10, map[], true, "reddit");
    assert [r, r, r][..2] == [r, r] && [r, r][..1] == [r] && [r][..0] == [];
    var e := Encode(r);
    assert PlanBatch([r], false, quotas, 10, map[], true) == Planned([e], ["reddit"]);
    assert PlanBatch([r, r], false, quotas, 10, map[], true) == Planned([e, e], ["reddit", "reddit"]);
  }

  /** `push_batch`'s return value as written: the admitted count, whether or
      not the pipeline ever ran (the counter is returned from after the
      `except` that swallows a failed `execute()` or a raising slim). */
  function BatchReportAsWritten(p: BatchPlan): nat
  {
    match p
    case Planned(es, _) => |es|
    case SlimRaised(k) => k
  }

  /** Whether the pipelined pushes are executed and succeed. */
  predicate BatchCommits(p: BatchPlan, online: bool)
  {
    p.Planned? && |p.entries| > 0 && online
  }

  /** The corrected report: the number of records actually written, 0 when
      the batch was abandoned. */
  function BatchReport(p: BatchPlan, online: bool): (n: nat)
    ensures n > 0 <==> BatchCommits(p, online)
    ensures n <= BatchReportAsWritten(p)
  {
    if BatchCommits(p, online) then |p.entries| else 0
  }

  /** With the store down, `push_batch` as written reports one record pushed
      while nothing reached the queue; the same happens when slimming the
      second record raises after the first was admitted. */
  lemma BatchReportAsWrittenOverstates()
    ensures var p := PlanBatch([map["source" := Str("rss")]], false, map[], DefaultMaxKeep, map[], false);
      BatchReportAsWritten(p) == 1 && !BatchCommits(p, false)
    ensures var p := PlanBatch([map["source" := Str("rss")], map["text" := Null]], true, map[], DefaultMaxKeep, map[], true);
      BatchReportAsWritten(p) == 1 && !BatchCommits(p, true)
  {
    var r := map["source" := Str("rss")];
    assert [r][..0] == [];
    var b := [r, map["text" := Null]];
    assert b[..1] == [r] && b[..1][..0] == [];
    assert Slim(r).Some?;
    assert PlanBatch(b[..1], true, map[], DefaultMaxKeep, map[], true).Planned?;
  }

  /** How many head entries `rebuild_source_counts` scans. */
  function ScanSize(length: nat, maxScan: Option<int>): int
  {
    if maxScan.None? then length else Min(length, maxScan.value)
  }

  /** Counters after a rebuild from `es`: every tallied source overwritten
      with its tally, every other counter left as it was. */
  function Reconciled(counters: map<string, int>, es: seq<Entry>): (c: map<string, int>)
    ensures c.Keys == counters.Keys + (set s | s in SourcesOf(es))
    ensures forall s :: s in SourcesOf(es) ==> c[s] == multiset(SourcesOf(es))[s]
    ensures forall s :: s in counters && s !in SourcesOf(es) ==> c[s] == counters[s]
  {
    TallyCounts(SourcesOf(es));
    counters + Tally(SourcesOf(es))
  }

  /** The rebuilt counts add up to at most the number of entries scanned,
      and to exactly that number when every scanned entry is well formed. */
  lemma ReconciledTotal(es: seq<Entry>)
    ensures Total(Tally(SourcesOf(es))) <= |es|
    ensures (forall i :: 0 <= i < |es| ==> es[i].Encoded?) ==> Total(Tally(SourcesOf(es))) == |es|
  {
    TallyTotal(SourcesOf(es));
  }

  /** Five records, three from reddit, one from twitter and one from rss,
      tally to reddit 3, twitter 1, rss 1. */
  lemma RebuildExample()
    ensures var rd, tw, rs := map["source" := Str("reddit")], map["source" := Str("twitter")], map["source" := Str("rss")];
      Tally(SourcesOf([Encode(rd), Encode(rd), Encode(tw), Encode(rs), Encode(rd)]))
        == map["reddit" := 3, "twitter" := 1, "rss" := 1]
  {
    ExampleSources();
    ExampleTally();
  }

  lemma ExampleSources()
    ensures var rd, tw, rs := map["source" := Str("reddit")], map["source" := Str("twitter")], map["source" := Str("rss")];
      SourcesOf([Encode(rd), Encode(rd), Encode(tw), Encode(rs), Encode(rd)]) == ["reddit", "reddit", "twitter", "rss", "reddit"]
  {
    var rd, tw, rs := map["source" := Str("reddit")], map["source" := Str("twitter")], map["source" := Str("rss")];
    var es := [Encode(rd), Encode(rd), Encode(tw), Encode(rs), Encode(rd)];
    var names := SourcesOf(es);
    assert |names| == 5 by { SourcesOfAt(es, 0); }
    forall i | 0 <= i < 5 ensures names[i] == ["reddit", "reddit", "twitter", "rss", "reddit"][i] {
      SourcesOfAt(es, i);
    }
  }

  lemma ExampleTally()
    ensures Tally(["reddit", "reddit", "twitter", "rss", "reddit"]) == map["reddit" := 3, "twitter" := 1, "rss" := 1]
  {
    ExampleTallyPrefix();
    TallySnoc(["reddit", "reddit", "twitter", "rss"], "reddit");
    assert ["reddit", "reddit", "twitter", "rss"] + ["reddit"] == ["reddit", "reddit", "twitter", "rss", "reddit"];
  }

  lemma ExampleTallyPrefix()
    ensures Tally(["reddit", "reddit", "twitter", "rss"]) == map["reddit" := 2, "twitter" := 1, "rss" := 1]
  {
    TallySnoc([], "reddit");
    assert Tally(["reddit"]) == map["reddit" := 1];
    TallySnoc(["reddit"], "reddit");
    assert Tally(["reddit", "reddit"]) == map["reddit" := 2];
    TallySnoc(["reddit", "reddit"], "twitter");
    assert Tally(["reddit", "reddit", "twitter"]) == map["reddit" := 2, "twitter" := 1];
    TallySnoc(["reddit", "reddit", "twitter"], "rss");
    assert ["reddit", "reddit", "twitter"] + ["rss"] == ["reddit", "reddit", "twitter", "rss"];
    assert "rss" != "reddit" && "rss" != "twitter";
  }

  /** When every entry is well formed, the i-th source is the i-th record's. */
  lemma {:induction false} SourcesOfAt(es: seq<Entry>, i: nat)
    requires i < |es| && forall j :: 0 <= j < |es| ==> es[j].Encoded?
    ensures |SourcesOf(es)| == |es| && SourcesOf(es)[i] == SourceOf(es[i].record)
  {
    var front := es[..|es| - 1];
    if i < |es| - 1 {
      SourcesOfAt(front, i);
    }
    assert |SourcesOf(front)| == |front|;
  }

  // ------------------------------------------------------------ the client

  class RedisClient {
    const queueName: string
    const slimMode: bool
    const maxKeep: int
    const quotas: map<string, Quota>

    /** The Redis list: index 0 is the newest entry. */
    var queue: seq<Entry>
    /** The per-source counter keys, by source name. */
    var counters: map<string, int>
    /** False when the store cannot be reached: every command raises. */
    var online: bool

    /** `__init__` over an existing store: `max_keep` defaults to 10000.
        The connectivity ping is not modelled. */
    constructor (queueName: string, slimMode: bool, maxKeepSetting: Option<int>, quotas: map<string, Quota>,
                 queue: seq<Entry>, counters: map<string, int>, online: bool)
      ensures this.queueName == queueName && this.slimMode == slimMode && this.quotas == quotas
      ensures this.maxKeep == (if maxKeepSetting.Some? then maxKeepSetting.value else DefaultMaxKeep)
      ensures this.queue == queue && this.counters == counters && this.online == online
    {
      this.queueName := queueName;
      this.slimMode := slimMode;
      this.maxKeep := if maxKeepSetting.Some? then maxKeepSetting.value else DefaultMaxKeep;
      this.quotas := quotas;
      this.queue := queue;
      this.counters := counters;
      this.online := online;
    }

    /** `get_queue_length`: LLEN, or -1 when the store fails. */
    method GetQueueLength() returns (n: int)
      ensures n == if online then |queue| else -1
      ensures n >= -1
    {
      if !online { return -1; }
      n := |queue|;
    }

    /** `LRANGE queue start stop`; None when the store fails. */
    method Range(start: int, stop: int) returns (r: Option<seq<Entry>>)
      ensures r == if online then Some(RangeOf(queue, start, stop)) else None
    {
      if !online { return None; }
      r := Some(RangeOf(queue, start, stop));
    }

    /** `LTRIM queue start stop`; false (queue untouched) when the store fails. */
    method Trim(start: int, stop: int) returns (ok: bool)
      modifies this`queue
      ensures ok == online
      ensures queue == if ok then RangeOf(old(queue), start, stop) else old(queue)
    {
      ok := online;
      if ok { queue := RangeOf(queue, start, stop); }
    }

    /** `DEL queue`; false (queue untouched) when the store fails. */
    method Delete() returns (ok: bool)
      modifies this`queue
      ensures ok == online
      ensures queue == if ok then [] else old(queue)
    {
      ok := online;
      if ok { queue := []; }
    }

    /**
     * `peek_data(count)`: the decoded entries `LRANGE 0 count-1` returns,
     * without changing the queue; [] when the store fails or an entry does
     * not decode.
     */
    method PeekData(count: int) returns (items: seq<Record>)
      ensures var d := DecodeAll(RangeOf(queue, 0, count - 1));
        items == if online && d.Some? then d.value else []
      ensures online && count >= 1 && DecodeAll(queue[..Min(count, |queue|)]).Some? ==>
        |items| == Min(count, |queue|) && forall i :: 0 <= i < |items| ==> queue[i] == Encode(items[i])
    {
      if !online { return []; }
      var window := RangeOf(queue, 0, count - 1);
      if count >= 1 { RangeFromHead(queue, count); }
      var decoded := DecodeAll(window);
      items := if decoded.Some? then decoded.value else [];
    }

    /**
     * `push_data`: slim the record in slim mode, reject it if its source is
     * over quota, otherwise push it at the head and bump its source counter.
     * Any failure (slimming raises, store down) returns false and writes
     * nothing.
     */
    method PushData(data: Record) returns (ok: bool)
      modifies this`queue, this`counters
      ensures var stored := Prepare(slimMode, data);
        ok <==> online && stored.Some? && !Exceeds(quotas, maxKeep, old(counters), online, SourceOf(stored.value))
      ensures ok ==> var stored := Prepare(slimMode, data).value;
        queue == [Encode(stored)] + old(queue) && counters == Bump(old(counters), SourceOf(stored), 1)
      ensures !ok ==> queue == old(queue) && counters == old(counters)
    {
      var stored := Prepare(slimMode, data);
      if stored.None? { return false; }
      var source := SourceOf(stored.value);
      if Exceeds(quotas, maxKeep, counters, online, source) { return false; }
      if !online { return false; }
      queue := [Encode(stored.value)] + queue;
      counters := Bump(counters, source, 1);
      ok := true;
    }

    /**
     * The admission loop of `push_batch`: slim each record, check its source
     * against the counters as they were before the batch, and queue the
     * admitted ones with their per-source increments. Changes nothing.
     */
    method AdmitBatch(batch: seq<Record>) returns (plan: BatchPlan, toIncr: map<string, nat>)
      ensures plan == PlanBatch(batch, slimMode, quotas, maxKeep, counters, online)
      ensures plan.Planned? ==> toIncr == Tally(plan.sources)
    {
      var entries: seq<Entry> := [];
      var sources: seq<string> := [];
      toIncr := map[];
      var i := 0;
      while i < |batch|
        invariant 0 <= i <= |batch|
        invariant PlanBatch(batch[..i], slimMode, quotas, maxKeep, counters, online) == Planned(entries, sources)
        invariant toIncr == Tally(sources)
      {
        var stored := Prepare(slimMode, batch[i]);
        if stored.None? {
          assert PlanBatch(batch[..i + 1], slimMode, quotas, maxKeep, counters, online) == SlimRaised(|entries|) by {
            PlanBatchPrefix(batch, i, slimMode, quotas, maxKeep, counters, online);
          }
          SlimRaisedPersists(batch, i + 1, slimMode, quotas, maxKeep, counters, online);
          return SlimRaised(|entries|), toIncr;
        }
        var source := SourceOf(stored.value);
        if !Exceeds(quotas, maxKeep, counters, online, source) {
          assert Tally(sources + [source]) == toIncr[source := (if source in toIncr then toIncr[source] else 0) + 1] by {
            TallySnoc(sources, source);
          }
          entries := entries + [Encode(stored.value)];
          sources := sources + [source];
          toIncr := toIncr[source := (if source in toIncr then toIncr[source] else 0) + 1];
        }
        assert PlanBatch(batch[..i + 1], slimMode, quotas, maxKeep, counters, online) == Planned(entries, sources) by {
          PlanBatchPrefix(batch, i, slimMode, quotas, maxKeep, counters, online);
        }
        i := i + 1;
      }
      assert batch[..i] == batch;
      plan := Planned(entries, sources);
    }

    /** The pipelined LPUSHes, in order: the last entry ends at the head. */
    method PushEntries(entries: seq<Entry>)
      modifies this`queue
      ensures queue == Reversed(entries) + old(queue)
    {
      for k := 0 to |entries|
        invariant queue == Reversed(entries[..k]) + old(queue)
      {
        assert entries[..k + 1][..k] == entries[..k];
        queue := [entries[k]] + queue;
      }
      assert entries[..|entries|] == entries;
    }

    /** `INCRBY` of every counter in `delta` by its amount. */
    method IncrementAll(delta: map<string, nat>)
      modifies this`counters
      ensures counters == AddAll(old(counters), delta)
    {
      var pending := delta.Keys;
      while pending != {}
        invariant pending <= delta.Keys
        invariant counters.Keys == old(counters).Keys + (delta.Keys - pending)
        invariant forall s :: s in counters ==>
          counters[s] == Get(old(counters), s) + (if s in delta && s !in pending then delta[s] else 0)
        decreases pending
      {
        var s :| s in pending;
        counters := Bump(counters, s, delta[s]);
        pending := pending - {s};
      }
      assert counters.Keys == AddAll(old(counters), delta).Keys;
    }

    /**
     * `push_batch`: run the admission loop, then execute the queued LPUSHes
     * in list order (the last admitted record ends at the head) and raise
     * each source counter by its admitted count. Returns the number of
     * records written; 0 when the batch was abandoned (corrected from the
     * source, see `BatchReportAsWritten`).
     */
    method PushBatch(batch: seq<Record>) returns (n: nat)
      modifies this`queue, this`counters
      ensures n == BatchReport(PlanBatch(batch, slimMode, quotas, maxKeep, old(counters), online), online)
      ensures n == 0 ==> queue == old(queue) && counters == old(counters)
      ensures n > 0 ==> var p := PlanBatch(batch, slimMode, quotas, maxKeep, old(counters), online);
        queue == Reversed(p.entries) + old(queue) && counters == AddAll(old(counters), Tally(p.sources))
      ensures var rs := Admitted(batch, slimMode, quotas, maxKeep, old(counters), online);
        && (n > 0 ==> n == |rs| && queue == Reversed(EncodeAll(rs)) + old(queue)
                      && counters == AddAll(old(counters), Tally(Sources(rs))))
        && (online && SlimsCleanly(batch, slimMode) ==> n == |rs|)
    {
      ghost var rs := Admitted(batch, slimMode, quotas, maxKeep, counters, online);
      PlanBatchAdmits(batch, slimMode, quotas, maxKeep, counters, online);
      var plan, toIncr := AdmitBatch(batch);
      if !BatchCommits(plan, online) { return 0; }
      assert plan.entries == EncodeAll(rs) && plan.sources == Sources(rs);
      ghost var q0, c0 := queue, counters;
      PushEntries(plan.entries);
      assert queue == Reversed(plan.entries) + q0;
      IncrementAll(toIncr);
      assert counters == AddAll(c0, toIncr);
      assert queue == Reversed(plan.entries) + q0;
      n := |plan.entries|;
      assert n == |rs|;
    }
    /**
     * `rebuild_source_counts(max_scan)`: tally the sources of the
     * `min(length, max_scan)` newest entries (skipping malformed ones) and
     * overwrite those counters in one pipeline; other counters keep their
     * value. `(0, {})` and no write when nothing is scanned or the store fails.
     */
    method RebuildSourceCounts(maxScan: Option<int>) returns (scanned: int, counts: map<string, nat>)
      modifies this`counters
      ensures var n := ScanSize(|queue|, maxScan);
        if online && n > 0 then
          && scanned == n && counts == Tally(SourcesOf(queue[..n]))
          && counters == Reconciled(old(counters), queue[..n])
        else scanned == 0 && counts == map[] && counters == old(counters)
    {
      if !online { return 0, map[]; }
      var length := |queue|;
      var scanN := ScanSize(length, maxScan);
      if scanN <= 0 { return 0, map[]; }
      var dataList := RangeOf(queue, 0, scanN - 1);
      RangeFromHead(queue, scanN);
      assert dataList == queue[..scanN];
      counts := TallySources(dataList);
      counters := counters + counts;
      scanned := scanN;
    }
  }

  /** The tally loop of `rebuild_source_counts`: each entry that decodes
      adds one to its source's count; entries that do not are skipped. */
  method TallySources(dataList: seq<Entry>) returns (counts: map<string, nat>)
    ensures counts == Tally(SourcesOf(dataList))
  {
    counts := map[];
    for i := 0 to |dataList|
      invariant counts == Tally(SourcesOf(dataList[..i]))
    {
      ghost var names := SourcesOf(dataList[..i]);
      assert dataList[..i + 1] == dataList[..i] + [dataList[i]];
      var d := Decode(dataList[i]);
      if d.Some? {
        var s := SourceOf(d.value);
        assert Tally(SourcesOf(dataList[..i + 1])) == counts[s := (if s in counts then counts[s] else 0) + 1] by {
          SourcesOfSnoc(dataList[..i], dataList[i]);
          TallySnoc(names, s);
        }
        counts := counts[s := (if s in counts then counts[s] else 0) + 1];
      } else {
        assert SourcesOf(dataList[..i + 1]) == names by {
          SourcesOfSnoc(dataList[..i], dataList[i]);
        }
      }
    }
    assert dataList[..|dataList|] == dataList;
  }
}
