/**
 * The export directory both exporters write into, the file names they
 * choose, and how the retention sweep reads a date back out of a name
 * (`Path.stem`, `str.split('_')`, `strptime(parts[1], '%Y%m%d')`) to decide
 * whether an archive has expired.
 *
 * A file is its name plus what it holds: the layout the writer chose and
 * the records, in order. Byte encodings (JSON text, gzip, parquet) are not
 * modelled; `Columnar` stands for a parquet table of the same records.
 */
module Archives {
  import opened Common
  import opened Records
  import opened Clock

  /** How a file lays its records out. */
  datatype Layout =
    | Envelope(exportTime: DateTime)                    // {export_time, count, data}
    | SourceEnvelope(exportTime: DateTime, source: string) // {export_time, source, count, data}
    | Columnar                                           // a parquet table
    | PlainList                                          // a bare JSON array
    | GzipList                                           // a bare JSON array, gzip-compressed

  datatype ArchiveFile = ArchiveFile(layout: Layout, records: seq<Record>)

  /** The directory exports are written into. */
  class ExportDir {
    const path: string
    /** The files present, by name. */
    var files: map<string, ArchiveFile>
    /** Whether opening a file for writing succeeds. */
    var writable: bool
    /** Whether `DataFrame.to_parquet` succeeds (a missing engine makes it raise). */
    var parquetWritable: bool

    constructor (path: string, files: map<string, ArchiveFile>, writable: bool, parquetWritable: bool)
      ensures this.path == path && this.files == files
      ensures this.writable == writable && this.parquetWritable == parquetWritable
    {
      this.path := path;
      this.files := files;
      this.writable := writable;
      this.parquetWritable := parquetWritable;
    }

    /** Writes (or overwrites) one file; false, and nothing written, when the
        write raises. */
    method Write(name: string, file: ArchiveFile) returns (ok: bool)
      modifies this`files
      ensures ok == if file.layout.Columnar? then parquetWritable else writable
      ensures files == if ok then old(files)[name := file] else old(files)
    {
      ok := if file.layout.Columnar? then parquetWritable else writable;
      if ok { files := files[name := file]; }
    }

    /** `unlink`. */
    method Remove(name: string)
      modifies this`files
      ensures files == old(files) - {name}
    {
      files := files - {name};
    }
  }

  /** `os.path.join(dir, name)` for a relative name. */
  function Join(dir: string, name: string): (p: string)
    ensures StartsWith(p, dir) && EndsWith(p, name)
  {
    if dir == [] || dir[|dir| - 1] == '/' then dir + name else dir + "/" + name
  }

  predicate StartsWith(s: string, prefix: string)
  {
    |prefix| <= |s| && s[..|prefix|] == prefix
  }

  predicate EndsWith(s: string, suffix: string)
  {
    |suffix| <= |s| && s[|s| - |suffix|..] == suffix
  }

  // ------------------------------------------------------------ names

  /** The formats `SmartExporter` archives in. */
  datatype ArchiveKind = ParquetArchive | GzipArchive | JsonArchive

  function Extension(k: ArchiveKind): string
  {
    match k
    case ParquetArchive => ".parquet"
    case GzipArchive => ".json.gz"
    case JsonArchive => ".json"
  }

  /** `data_{YYYYMMDD_HHMMSS}{ext}`, the name `SmartExporter.export` writes. */
  function ArchiveName(t: DateTime, k: ArchiveKind): string
    requires ValidNow(t)
  {
    "data_" + Stamp(t) + Extension(k)
  }

  /** `data_export_{YYYYMMDD_HHMMSS}.{ext}`, the name the drain writes. */
  function DrainFileName(t: DateTime, parquet: bool): string
    requires ValidNow(t)
  {
    "data_export_" + Stamp(t) + (if parquet then ".parquet" else ".json")
  }

  /** `data_{source}_{YYYYMMDD_HHMMSS}.json`, the name a per-source export writes. */
  function SourceFileName(source: string, t: DateTime): string
    requires ValidNow(t)
  {
    "data_" + source + "_" + Stamp(t) + ".json"
  }

  /** Matches one of the sweep's globs `data_*.json`, `data_*.json.gz`, `data_*.parquet`. */
  predicate IsArchiveName(name: string)
  {
    exists k: ArchiveKind :: |name| >= 5 + |Extension(k)| && StartsWith(name, "data_") && EndsWith(name, Extension(k))
  }

  // ------------------------------------------------------------ stem and split

  /** `str.find(c)`. */
  function IndexOf(s: string, c: char): (r: Option<nat>)
    ensures r.None? <==> c !in s
    ensures r.Some? ==> r.value < |s| && s[r.value] == c && c !in s[..r.value]
  {
    if s == [] then None
    else if s[0] == c then Some(0)
    else
      match IndexOf(s[1..], c)
      case None => None
      case Some(i) =>
        assert s[1..][..i] == s[1..i + 1];
        Some(i + 1)
  }

  /** `str.rfind(c)`. */
  function LastIndexOf(s: string, c: char): (r: Option<nat>)
    ensures r.None? <==> c !in s
    ensures r.Some? ==> r.value < |s| && s[r.value] == c && c !in s[r.value + 1..]
  {
    if s == [] then None
    else if s[|s| - 1] == c then Some(|s| - 1)
    else
      var r := LastIndexOf(s[..|s| - 1], c);
      if r.Some? then
        assert s[r.value + 1..] == s[..|s| - 1][r.value + 1..] + [s[|s| - 1]];
        r
      else r
  }

  /** `PurePath.stem`: the name without its last suffix. */
  function Stem(name: string): string
  {
    match LastIndexOf(name, '.')
    case Some(i) => if 0 < i < |name| - 1 then name[..i] else name
    case None => name
  }

  /** `str.split(c)`: the pieces between occurrences of `c`, empty ones included. */
  function SplitOn(s: string, c: char): (parts: seq<string>)
    ensures |parts| >= 1
    decreases |s|
  {
    match IndexOf(s, c)
    case None => [s]
    case Some(i) => [s[..i]] + SplitOn(s[i + 1..], c)
  }

  /** Splitting at a first occurrence of the separator. */
  lemma SplitOnFirst(a: string, b: string, c: char)
    requires c !in a
    ensures SplitOn(a + [c] + b, c) == [a] + SplitOn(b, c)
  {
    var s := a + [c] + b;
    assert s[|a|] == c;
    var i := IndexOf(s, c).value;
    assert i == |a|;
    assert s[..i] == a && s[i + 1..] == b;
  }

  /** The stem of `p.q` when the last suffix `q` holds no dot. */
  lemma StemOf(p: string, q: string)
    requires |p| > 0 && |q| > 0 && '.' !in q
    ensures Stem(p + "." + q) == p
  {
    var s := p + "." + q;
    assert s[|p|] == '.';
    assert s[|p| + 1..] == q;
    var i := LastIndexOf(s, '.').value;
    assert i == |p|;
    assert s[..i] == p;
  }

  /** The date a sweep reads from a file name: `parts[1]` of the stem split
      on underscores, parsed as `%Y%m%d`; None where the sweep skips the file. */
  function ArchiveDate(name: string): (d: Option<Date>)
    ensures d.Some? ==> ValidDate(d.value)
    ensures '_' !in Stem(name) ==> d.None?
  {
    var parts := SplitOn(Stem(name), '_');
    if |parts| < 2 then None else ParseYmd(parts[1])
  }

  /** A file the sweep deletes: its date's midnight is strictly before
      `now - retention_days`. */
  predicate Expired(name: string, now: DateTime, retentionDays: int)
    ensures Expired(name, now, retentionDays) ==> ArchiveDate(name).Some?
  {
    var d := ArchiveDate(name);
    d.Some? && Midnight(d.value) < Seconds(now) - retentionDays * SecondsPerDay
  }

  // ------------------------------------------------------------ what the sweep sees

  /** `data_{stamp}{rest}` splits into "data", the date digits, and the rest
      of the name, when `rest` holds no underscore. */
  lemma SplitStampedName(t: DateTime, rest: string)
    requires ValidNow(t) && '_' !in rest
    ensures SplitOn("data_" + Stamp(t) + rest, '_')[..2] == ["data", DateDigits(t.date)]
  {
    StampSplits(t);
    SplitDataName(DateDigits(t.date), Stamp(t)[9..], rest);
  }

  /** `data_{ymd}_{hms}{rest}` splits into "data", `ymd`, and the rest, when
      none of the pieces holds an underscore. */
  lemma SplitDataName(ymd: string, hms: string, rest: string)
    requires '_' !in ymd && '_' !in hms && '_' !in rest
    ensures SplitOn("data_" + (ymd + "_" + hms) + rest, '_')[..2] == ["data", ymd]
  {
    var tail := hms + rest;
    assert '_' !in tail by {
      forall i | 0 <= i < |tail| ensures tail[i] != '_' {
        if i < |hms| { assert tail[i] == hms[i]; } else { assert tail[i] == rest[i - |hms|]; }
      }
    }
    assert "data_" + (ymd + "_" + hms) + rest == "data" + ['_'] + (ymd + ['_'] + tail);
    SplitOnFirst("data", ymd + ['_'] + tail, '_');
    SplitOnFirst(ymd, tail, '_');
    assert SplitOn("data" + ['_'] + (ymd + ['_'] + tail), '_') == ["data"] + ([ymd] + SplitOn(tail, '_'));
  }

  /** A stamp is its date digits, an underscore, and a time part; neither
      part holds an underscore. */
  lemma StampSplits(t: DateTime)
    requires ValidNow(t)
    ensures |Stamp(t)| >= 9 && Stamp(t) == DateDigits(t.date) + "_" + Stamp(t)[9..]
    ensures '_' !in DateDigits(t.date) && '_' !in Stamp(t)[9..]
  {
    var st := Stamp(t);
    assert st == DateDigits(t.date) + "_" + st[9..];
    forall i | 0 <= i < 8 ensures DateDigits(t.date)[i] != '_' { assert DateDigits(t.date)[i] == st[i]; }
    forall i | 9 <= i < |st| ensures st[i] != '_' { }
    assert forall i | 0 <= i < |st[9..]| :: st[9..][i] == st[9 + i];
  }

  /** Stamps hold no dot. */
  lemma StampHasNoDot(t: DateTime)
    requires ValidNow(t)
    ensures '.' !in Stamp(t)
  {
    var st := Stamp(t);
    forall i | 0 <= i < |st| ensures st[i] != '.' {
      if i != 8 { assert '0' <= st[i] <= '9'; }
    }
  }

  /** The stem of an archive name: the last suffix dropped. */
  lemma ArchiveNameStem(t: DateTime, k: ArchiveKind)
    requires ValidNow(t)
    ensures Stem(ArchiveName(t, k)) == "data_" + Stamp(t) + (if k.GzipArchive? then ".json" else "")
  {
    var p := "data_" + Stamp(t) + (if k.GzipArchive? then ".json" else "");
    var q: string := match k case ParquetArchive => "parquet" case GzipArchive => "gz" case JsonArchive => "json";
    StampHasNoDot(t);
    assert ArchiveName(t, k) == p + "." + q;
    StemOf(p, q);
  }

  /** Every archive `SmartExporter` writes matches a sweep glob. */
  lemma ArchiveNameMatches(t: DateTime, k: ArchiveKind)
    requires ValidNow(t)
    ensures IsArchiveName(ArchiveName(t, k))
  {
    var name := ArchiveName(t, k);
    assert StartsWith(name, "data_");
    assert EndsWith(name, Extension(k));
  }

  /** The sweep reads back the day an archive was written. */
  lemma ArchiveNameDate(t: DateTime, k: ArchiveKind)
    requires ValidNow(t)
    ensures ArchiveDate(ArchiveName(t, k)) == Some(t.date)
  {
    var rest: string := if k.GzipArchive? then ".json" else "";
    ArchiveNameStem(t, k);
    SplitStampedName(t, rest);
    var parts := SplitOn("data_" + Stamp(t) + rest, '_');
    assert parts[1] == parts[..2][1];
    ParseDateDigits(t.date);
  }

  /** The drain's `data_export_…` files carry no date the sweep can read:
      their second name part is "export". */
  lemma DrainFileDate(t: DateTime, parquet: bool)
    requires ValidNow(t)
    ensures ArchiveDate(DrainFileName(t, parquet)) == None
  {
    var st := Stamp(t);
    var p := "data_export_" + st;
    var q: string := if parquet then "parquet" else "json";
    assert Stem(DrainFileName(t, parquet)) == p by {
      StampHasNoDot(t);
      assert DrainFileName(t, parquet) == p + "." + q;
      StemOf(p, q);
    }
    DrainStemParts(st);
  }

  lemma DrainStemParts(st: string)
    ensures SplitOn("data_export_" + st, '_')[1] == "export"
  {
    assert "data_export_" + st == "data" + ['_'] + ("export" + ['_'] + st);
    SplitOnFirst("data", "export" + ['_'] + st, '_');
    SplitOnFirst("export", st, '_');
  }

  /** Hence the sweep never deletes them, whatever the retention. */
  lemma DrainFilesNeverExpire(t: DateTime, parquet: bool, now: DateTime, retentionDays: int)
    requires ValidNow(t)
    ensures !Expired(DrainFileName(t, parquet), now, retentionDays)
  {
    DrainFileDate(t, parquet);
  }

  /** A per-source export of a source without underscores is swept only if
      the source name itself reads as a date. */
  lemma SourceFileDate(source: string, t: DateTime)
    requires ValidNow(t) && '_' !in source
    ensures ArchiveDate(SourceFileName(source, t)) == ParseYmd(source)
  {
    var st := Stamp(t);
    var rest := source + ['_'] + st;
    SourceFileStem(source, t);
    SplitOnFirst("data", rest, '_');
    SplitOnFirst(source, st, '_');
    var parts := SplitOn(Stem(SourceFileName(source, t)), '_');
    assert parts == ["data"] + ([source] + SplitOn(st, '_'));
    assert |parts| >= 2 && parts[1] == source;
  }

  /** The stem of a per-source file name drops only the `.json`. */
  lemma SourceFileStem(source: string, t: DateTime)
    requires ValidNow(t)
    ensures Stem(SourceFileName(source, t)) == "data" + ['_'] + (source + ['_'] + Stamp(t))
  {
    var p := "data" + ['_'] + (source + ['_'] + Stamp(t));
    assert SourceFileName(source, t) == p + "." + "json";
    StampHasNoDot(t);
    StemOf(p, "json");
  }

  /**
   * The sweep's rule in whole days: with `today` the day number of `now`, a
   * dated file expires iff its day is before `today - retention_days`, or
   * is that very day and `now` is past midnight.
   */
  lemma ExpiredInDays(name: string, now: DateTime, retentionDays: int)
    requires ValidNow(now)
    ensures Expired(name, now, retentionDays) <==>
      ArchiveDate(name).Some? &&
      var day, today := DayNumber(ArchiveDate(name).value), DayNumber(now.date);
      day < today - retentionDays || (day == today - retentionDays && Seconds(now) > Midnight(now.date))
  {
    MidnightNotAfter(now);
    if ArchiveDate(name).Some? {
      var day, today := DayNumber(ArchiveDate(name).value), DayNumber(now.date);
      var s := Seconds(now) - Midnight(now.date);
      assert Seconds(now) - retentionDays * SecondsPerDay == (today - retentionDays) * SecondsPerDay + s;
      if day < today - retentionDays {
        assert day * SecondsPerDay <= (today - retentionDays - 1) * SecondsPerDay;
      } else if day > today - retentionDays {
        assert day * SecondsPerDay >= (today - retentionDays + 1) * SecondsPerDay;
      }
    }
  }

  /** With at least one day of retention, an archive written today survives. */
  lemma FreshArchiveKept(t: DateTime, k: ArchiveKind, now: DateTime, retentionDays: int)
    requires ValidNow(t) && ValidNow(now) && t.date == now.date && retentionDays >= 1
    ensures !Expired(ArchiveName(t, k), now, retentionDays)
  {
    ArchiveNameDate(t, k);
    ExpiredInDays(ArchiveName(t, k), now, retentionDays);
  }

  /** The files left after a sweep: every matching file that has expired is
      gone, every other file is kept unchanged. */
  function Swept(files: map<string, ArchiveFile>, now: DateTime, retentionDays: int): (r: map<string, ArchiveFile>)
    ensures forall n :: n in r <==> n in files && !(IsArchiveName(n) && Expired(n, now, retentionDays))
    ensures forall n :: n in r ==> r[n] == files[n]
  {
    map n | n in files && !(IsArchiveName(n) && Expired(n, now, retentionDays)) :: files[n]
  }

  /** A longer retention never deletes more: a file expired under the
      longer period is expired under any shorter one. */
  lemma ExpiredMonotone(name: string, now: DateTime, shorter: int, longer: int)
    requires shorter <= longer
    ensures Expired(name, now, longer) ==> Expired(name, now, shorter)
  {
    if Expired(name, now, longer) {
      assert shorter * SecondsPerDay <= longer * SecondsPerDay;
    }
  }

  /** Sweeping twice at the same moment removes nothing more: the files a
      sweep leaves are all kept by the next one. */
  lemma SweptIdempotent(files: map<string, ArchiveFile>, now: DateTime, retentionDays: int)
    ensures Swept(Swept(files, now, retentionDays), now, retentionDays) == Swept(files, now, retentionDays)
  {
  }
}
