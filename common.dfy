/** Small shared vocabulary: optional values, results, and Python's `range`. */
module Common {

  datatype Option<T> = None | Some(value: T)

  datatype Result<T, E> = Ok(value: T) | Err(error: E)

  function Min(a: int, b: int): int { if a <= b then a else b }

  function Max(a: int, b: int): int { if a >= b then a else b }

  /** `range(start, stop, step)` raises ValueError for a zero step. */
  datatype RangeError = ZeroStep

  /**
   * The values `range(start, stop, step)` yields, in order: start, start+step, ...
   * while below `stop` (positive step) or above it (negative step).
   */
  function PyRange(start: int, stop: int, step: int): (r: Result<seq<int>, RangeError>)
    decreases if step > 0 then stop - start else start - stop
    ensures r.Err? <==> step == 0
    ensures r.Ok? ==> forall k :: 0 <= k < |r.value| ==>
      (if step > 0 then start <= r.value[k] < stop else stop < r.value[k] <= start)
    ensures r.Ok? && |r.value| > 0 ==> r.value[0] == start
    ensures r.Ok? ==> forall k :: 0 <= k < |r.value| - 1 ==> r.value[k + 1] == r.value[k] + step
    ensures r.Ok? && (if step > 0 then start < stop else stop < start) ==> |r.value| > 0
  {
    if step == 0 then Err(ZeroStep)
    else if (step > 0 && start >= stop) || (step < 0 && start <= stop) then Ok([])
    else
      var rest := PyRange(start + step, stop, step);
      Ok([start] + rest.value)
  }

  function Sum(s: seq<int>): int
  {
    if s == [] then 0 else Sum(s[..|s| - 1]) + s[|s| - 1]
  }

  /** Sum of the values of a map. */
  ghost function Total(m: map<string, nat>): nat
    decreases |m|
  {
    if |m| == 0 then 0
    else
      var k :| k in m;
      m[k] + Total(m - {k})
  }

  lemma TotalUnfold(m: map<string, nat>)
    requires |m| > 0
    ensures exists j :: j in m && Total(m) == m[j] + Total(m - {j})
  {
  }

  lemma TotalRemove(m: map<string, nat>, k: string)
    requires k in m
    ensures Total(m) == m[k] + Total(m - {k})
    decreases |m|, 1
  {
    TotalUnfold(m);
    var j :| j in m && Total(m) == m[j] + Total(m - {j});
    if j != k {
      TotalSwap(m, j, k);
    }
  }

  lemma TotalSwap(m: map<string, nat>, j: string, k: string)
    requires j in m && k in m && j != k
    requires Total(m) == m[j] + Total(m - {j})
    ensures Total(m) == m[k] + Total(m - {k})
    decreases |m|, 0
  {
    var mj, mk := m - {j}, m - {k};
    assert mj.Keys == m.Keys - {j} && mk.Keys == m.Keys - {k};
    assert |mj| < |m| && |mk| < |m|;
    assert mj - {k} == mk - {j};
    TotalRemove(mj, k);
    TotalRemove(mk, j);
  }

  lemma TotalBump(m: map<string, nat>, x: string)
    ensures Total(m[x := (if x in m then m[x] else 0) + 1]) == Total(m) + 1
  {
    var m' := m[x := (if x in m then m[x] else 0) + 1];
    TotalRemove(m', x);
    assert m' - {x} == m - {x};
    if x in m {
      TotalRemove(m, x);
    } else {
      assert m - {x} == m;
    }
  }

}
