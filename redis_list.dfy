/**
 * The two Redis list commands the drain relies on, LRANGE and LTRIM, with the
 * index rules Redis documents: negative indices count from the end, an
 * out-of-range stop is clamped, and a start past the stop selects nothing.
 */
module RedisList {
  import opened Common

  /** The half-open window `[lo, hi)` that `LRANGE key start stop` returns and
      `LTRIM key start stop` keeps, on a list of length `len`. */
  function Window(start: int, stop: int, len: nat): (w: (nat, nat))
    ensures w.0 <= w.1 <= len
  {
    var s := if start < 0 then len + start else start;
    var e := if stop < 0 then len + stop else stop;
    var lo := if s < 0 then 0 else s;
    if lo > e || lo >= len then (0, 0)
    else (lo, if e >= len then len else e + 1)
  }

  /** The elements selected by `start`..`stop`: LRANGE's reply, and what LTRIM keeps. */
  function RangeOf<T>(q: seq<T>, start: int, stop: int): (r: seq<T>)
    ensures var w := Window(start, stop, |q|);
      |r| == w.1 - w.0 <= |q| && forall k :: 0 <= k < |r| ==> r[k] == q[w.0 + k]
  {
    var w := Window(start, stop, |q|);
    q[w.0..w.1]
  }

  /** With non-negative in-range bounds the window is the plain slice. */
  lemma RangeInside<T>(q: seq<T>, start: int, stop: int)
    requires 0 <= start <= stop < |q|
    ensures RangeOf(q, start, stop) == q[start..stop + 1]
  {
  }

  /** `start = 0, stop = n - 1` selects the `n` newest elements when `n >= 1` ... */
  lemma RangeFromHead<T>(q: seq<T>, n: int)
    requires n >= 1
    ensures RangeOf(q, 0, n - 1) == q[..Min(n, |q|)]
  {
  }

  /** ... but `stop = -1` means "through the last element": with `n = 0` the
      whole list is selected, not nothing. */
  lemma RangeZeroCountSelectsAll<T>(q: seq<T>)
    ensures RangeOf(q, 0, -1) == q
  {
  }
}
