/**
 * Records as producers hand them to the ingestion path, their serialized
 * form on the queue, slim-mode compaction, and the per-source tally used by
 * counter reconciliation.
 */
module Records {
  import opened Common

  /** A JSON value as a record field holds it. `Other` stands for numbers,
      booleans, lists and objects: it carries its `str()` rendering and its
      Python truthiness. */
  datatype Value =
    | Str(chars: string)
    | Null
    | Other(rendering: string, truthy: bool)

  /** A record: a mapping from field name to value. */
  type Record = map<string, Value>

  /** Python truthiness, as used by `x or default`. */
  predicate Truthy(v: Value)
  {
    match v
    case Str(s) => s != ""
    case Null => false
    case Other(_, t) => t
  }

  /** `str(v)`, as an f-string renders a value. */
  function Render(v: Value): string
  {
    match v
    case Str(s) => s
    case Null => "None"
    case Other(r, _) => r
  }

  const Unknown: string := "unknown"

  /** `data.get('source') or 'unknown'`: the name a record is accounted under. */
  function SourceOf(r: Record): (s: string)
    ensures "source" in r && r["source"].Str? && r["source"].chars != "" ==> s == r["source"].chars
    ensures !("source" in r && Truthy(r["source"])) ==> s == Unknown
  {
    if "source" in r && Truthy(r["source"]) then Render(r["source"]) else Unknown
  }

  /** A queue element: the JSON encoding of a record, or a string that does
      not decode to a record (`json.loads` raises on it). */
  datatype Entry = Encoded(record: Record) | Garbage(raw: string)

  /** `json.dumps`: an injective encoding. */
  function Encode(r: Record): Entry { Encoded(r) }

  /** `json.loads`: None when the entry is malformed. */
  function Decode(e: Entry): Option<Record>
  {
    if e.Encoded? then Some(e.record) else None
  }

  /** Decodes every entry in order; None as soon as one is malformed
      (a list comprehension over `json.loads` raises on the first bad item). */
  function DecodeAll(es: seq<Entry>): (r: Option<seq<Record>>)
    ensures r.Some? <==> forall i :: 0 <= i < |es| ==> es[i].Encoded?
    ensures r.Some? ==> |r.value| == |es| && forall i :: 0 <= i < |es| ==> r.value[i] == es[i].record
  {
    if es == [] then Some([])
    else
      match DecodeAll(es[..|es| - 1])
      case None => None
      case Some(front) =>
        match Decode(es[|es| - 1])
        case None => None
        case Some(last) => Some(front + [last])
  }

  lemma {:induction false} DecodeAllAppend(a: seq<Entry>, b: seq<Entry>)
    ensures DecodeAll(a + b) ==
      if DecodeAll(a).Some? && DecodeAll(b).Some? then Some(DecodeAll(a).value + DecodeAll(b).value) else None
  {
    var ab := a + b;
    if DecodeAll(a).Some? && DecodeAll(b).Some? {
      assert forall i :: 0 <= i < |ab| ==> ab[i].Encoded? by {
        forall i | 0 <= i < |ab| ensures ab[i].Encoded? {
          if i < |a| { assert ab[i] == a[i]; } else { assert ab[i] == b[i - |a|]; }
        }
      }
      var want := DecodeAll(a).value + DecodeAll(b).value;
      assert forall i :: 0 <= i < |ab| ==> DecodeAll(ab).value[i] == want[i] by {
        forall i | 0 <= i < |ab| ensures DecodeAll(ab).value[i] == want[i] {
          if i < |a| { assert ab[i] == a[i]; } else { assert ab[i] == b[i - |a|]; }
        }
      }
      assert DecodeAll(ab).value == want;
    } else if DecodeAll(a).None? {
      var i :| 0 <= i < |a| && !a[i].Encoded?;
      assert ab[i] == a[i];
    } else {
      var i :| 0 <= i < |b| && !b[i].Encoded?;
      assert ab[|a| + i] == b[i];
    }
  }

  /** Every record pushed decodes back to itself: archives hold the record as pushed. */
  lemma {:induction false} DecodeAllEncoded(rs: seq<Record>)
    ensures DecodeAll(EncodeAll(rs)) == Some(rs)
  {
    var es := EncodeAll(rs);
    assert forall i :: 0 <= i < |es| ==> es[i].Encoded?;
    assert DecodeAll(es).value == rs;
  }

  function EncodeAll(rs: seq<Record>): (es: seq<Entry>)
    ensures |es| == |rs| && forall i :: 0 <= i < |rs| ==> es[i] == Encode(rs[i])
  {
    seq(|rs|, i requires 0 <= i < |rs| => Encode(rs[i]))
  }

  // ---------------------------------------------------------------- slim mode

  /** The allow-list of fields slim mode keeps. */
  const SlimFields: set<string> :=
    {"title", "url", "published", "source", "feed_category", "language", "summary", "timestamp"}

  /** Number of characters of `text` a synthesized summary keeps. */
  const SummaryBudget: nat := 500

  /**
   * `_slim_data`: keep the allow-listed fields, fill a missing `timestamp`
   * from `crawl_timestamp` and a missing `summary` from the first 500
   * characters of `text`. None when `text` must be sliced but is not a
   * string (the slice raises). `SlimShape` states what the result holds.
   */
  function Slim(data: Record): (r: Option<Record>)
    ensures r.None? <==> "summary" !in data && "text" in data && !data["text"].Str?
  {
    var kept := map k | k in data && k in SlimFields :: data[k];
    var withTime :=
      if "timestamp" !in kept && "crawl_timestamp" in data then kept["timestamp" := data["crawl_timestamp"]]
      else kept;
    if "summary" !in withTime && "text" in data then
      match data["text"]
      case Str(t) => Some(withTime["summary" := Str(t[..Min(SummaryBudget, |t|)])])
      case _ => None
    else Some(withTime)
  }

  /** A slimmed record holds only allow-listed fields, keeps every
      allow-listed field it was given, and gains `timestamp` and `summary`
      exactly when it can fill them. */
  lemma SlimShape(data: Record)
    requires Slim(data).Some?
    ensures var r := Slim(data).value;
      && r.Keys <= SlimFields
      && (forall k :: k in SlimFields && k in data ==> k in r && r[k] == data[k])
      && ("timestamp" in r <==> "timestamp" in data || "crawl_timestamp" in data)
      && ("timestamp" !in data && "crawl_timestamp" in data ==> r["timestamp"] == data["crawl_timestamp"])
      && ("summary" in r <==> "summary" in data || "text" in data)
      && ("summary" !in data && "text" in data ==>
            var t := data["text"].chars; r["summary"] == Str(t[..Min(SummaryBudget, |t|)]))
      && (forall k :: k in r && k != "timestamp" && k != "summary" ==> k in data && r[k] == data[k])
  {
  }

  /** Slimming a slimmed record changes nothing: the stored form is a fixed point,
      so a record archived in slim mode round-trips from its slimmed form. */
  lemma SlimIdempotent(data: Record)
    requires Slim(data).Some?
    ensures Slim(Slim(data).value) == Slim(data)
  {
    var s := Slim(data).value;
    SlimShape(data);
    assert "crawl_timestamp" !in s && "text" !in s;
    var kept := map k | k in s && k in SlimFields :: s[k];
    assert kept == s;
  }

  /** Slimming never changes the source a record is accounted under. */
  lemma SlimKeepsSource(data: Record)
    requires Slim(data).Some?
    ensures SourceOf(Slim(data).value) == SourceOf(data)
  {
    SlimShape(data);
  }

  // ---------------------------------------------------------------- tallies

  /** The source names of the well-formed entries, in queue order; malformed
      entries are skipped, as the reconciliation scan skips them. */
  function SourcesOf(es: seq<Entry>): (s: seq<string>)
    ensures |s| <= |es|
    ensures (forall i :: 0 <= i < |es| ==> es[i].Encoded?) ==> |s| == |es|
  {
    if es == [] then []
    else
      var front := SourcesOf(es[..|es| - 1]);
      match es[|es| - 1]
      case Encoded(r) => front + [SourceOf(r)]
      case Garbage(_) => front
  }

  /** Occurrences per name, as the `counts[s] = counts.get(s, 0) + 1` loop
      builds it; `TallyCounts` states what it holds. */
  function Tally(names: seq<string>): map<string, nat>
  {
    if names == [] then map[]
    else
      var t := Tally(names[..|names| - 1]);
      var x := names[|names| - 1];
      t[x := (if x in t then t[x] else 0) + 1]
  }

  /** The tally has an entry for exactly the names present, holding the
      number of times each occurs. */
  lemma {:induction false} TallyCounts(names: seq<string>)
    ensures forall s :: s in Tally(names) <==> s in names
    ensures forall s :: s in Tally(names) ==> Tally(names)[s] == multiset(names)[s]
  {
    if names != [] {
      var front := names[..|names| - 1];
      var x := names[|names| - 1];
      assert names == front + [x];
      TallyCounts(front);
    }
  }

  /** Tallying one more name bumps that name's count. */
  lemma TallySnoc(names: seq<string>, x: string)
    ensures Tally(names + [x]) == var t := Tally(names); t[x := (if x in t then t[x] else 0) + 1]
  {
    assert (names + [x])[..|names|] == names;
  }

  /** Scanning one more entry adds its source if it is well formed. */
  lemma SourcesOfSnoc(es: seq<Entry>, e: Entry)
    ensures SourcesOf(es + [e]) == SourcesOf(es) + (if e.Encoded? then [SourceOf(e.record)] else [])
  {
    assert (es + [e])[..|es|] == es;
  }

  /** The tallied counts add up to the number of names tallied. */
  lemma {:induction false} TallyTotal(names: seq<string>)
    ensures Total(Tally(names)) == |names|
  {
    if names != [] {
      var front := names[..|names| - 1];
      TallyTotal(front);
      TotalBump(Tally(front), names[|names| - 1]);
    }
  }
}
