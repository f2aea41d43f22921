/**
 * The amplitude history recorded at the selected point: each recorded
 * tick appends one height, and the list is then cut back to its most
 * recent `cap` entries, `cap` being the history duration divided by the
 * frame step, truncated.
 */
module History {

  /** The most recent `cap` entries of `h`, or all of `h` when it is not longer than `cap`. */
  function Window<T>(h: seq<T>, cap: nat): (w: seq<T>)
    ensures |w| == if |h| <= cap then |h| else cap
    ensures w == h[|h| - |w|..]
  {
    if |h| > cap then h[|h| - cap..] else h
  }

  /**
   * Python's tail slice of length `k` (a negative start index). Since minus zero is zero, `k == 0` selects the
   * whole list, and a `k` beyond the length is clipped to the start.
   */
  function PyTail<T>(h: seq<T>, k: nat): (t: seq<T>)
    ensures 0 < k <= |h| ==> |t| == k
    ensures k == 0 || k > |h| ==> t == h
    ensures |t| <= |h| && t == h[|h| - |t|..]
  {
    if k == 0 || k > |h| then h else h[|h| - k..]
  }

  /** The cut as `update` performs it: when the list is longer than `cap`, keep the Python tail slice of length `cap`. */
  function TrimAsWritten<T>(h: seq<T>, cap: nat): (t: seq<T>)
    ensures |t| <= |h| && t == h[|h| - |t|..]
  {
    if |h| > cap then PyTail(h, cap) else h
  }

  /** For every positive cap the written cut keeps exactly the most recent `cap` entries. */
  lemma TrimAsWrittenIsWindow<T>(h: seq<T>, cap: nat)
    requires cap > 0
    ensures TrimAsWritten(h, cap) == Window(h, cap)
  {
  }

  /** With a cap of 0 the tail slice is the whole list, so the cut as written keeps every entry. */
  lemma TrimAsWrittenIgnoresZeroCap<T>(h: seq<T>)
    ensures TrimAsWritten(h, 0) == h
  {
  }

  /** One recording: append `x`, keep the most recent `cap` entries. */
  function Record<T>(h: seq<T>, x: T, cap: nat): (h': seq<T>)
    ensures |h'| == if |h| + 1 <= cap then |h| + 1 else cap
    ensures h' == (h + [x])[|h| + 1 - |h'|..]
    ensures |h'| > 0 ==> h'[|h'| - 1] == x
  {
    Window(h + [x], cap)
  }

  /** Recording every value of `xs`, in order. */
  function RecordAll<T>(h: seq<T>, xs: seq<T>, cap: nat): seq<T>
    decreases |xs|
  {
    if xs == [] then h else RecordAll(Record(h, xs[0], cap), xs[1..], cap)
  }

  /** Recording every value of `xs` with the cut as written. */
  function RecordAllAsWritten<T>(h: seq<T>, xs: seq<T>, cap: nat): seq<T>
    decreases |xs|
  {
    if xs == [] then h else RecordAllAsWritten(TrimAsWritten(h + [xs[0]], cap), xs[1..], cap)
  }

  /**
   * With a cap of 0 the cut as written never removes anything: after any
   * series of recordings the history is the old one followed by the whole
   * series, so its length grows by one per recording without bound.
   */
  lemma {:induction false} ZeroCapKeepsEverything<T>(h: seq<T>, xs: seq<T>)
    ensures RecordAllAsWritten(h, xs, 0) == h + xs
    ensures |RecordAllAsWritten(h, xs, 0)| == |h| + |xs|
    decreases |xs|
  {
    if xs != [] {
      TrimAsWrittenIgnoresZeroCap(h + [xs[0]]);
      ZeroCapKeepsEverything(h + [xs[0]], xs[1..]);
      assert (h + [xs[0]]) + xs[1..] == h + xs;
    }
  }

  /**
   * Starting from a history within the cap, recording a series of values
   * one by one leaves the most recent `cap` entries of the history followed
   * by the series, in order; in particular never more than `cap` entries.
   */
  lemma {:induction false} RecordAllKeepsLatest<T>(h: seq<T>, xs: seq<T>, cap: nat)
    requires |h| <= cap
    ensures RecordAll(h, xs, cap) == Window(h + xs, cap)
    ensures |RecordAll(h, xs, cap)| <= cap
    decreases |xs|
  {
    if xs != [] {
      var h' := Record(h, xs[0], cap);
      RecordAllKeepsLatest(h', xs[1..], cap);
      WindowOfAppend(h + [xs[0]], xs[1..], cap);
      assert (h + [xs[0]]) + xs[1..] == h + xs;
    }
  }

  /** Cutting a prefix back to the window first does not change the window of the whole. */
  lemma WindowOfAppend<T>(a: seq<T>, b: seq<T>, cap: nat)
    ensures Window(Window(a, cap) + b, cap) == Window(a + b, cap)
  {
    var w := Window(a, cap);
    if |a| > cap {
      var k := |a| - cap;
      assert w == a[k..];
      assert a + b == a[..k] + (w + b);
      if |w + b| > cap {
        assert (a + b)[|a + b| - cap..] == (w + b)[|w + b| - cap..];
      } else {
        assert |w + b| == cap && |b| == 0;
        assert (a + b)[|a + b| - cap..] == w + b;
      }
    }
  }
}
