/**
 * The aggressive outlier filter shared by the legacy loop's
 * `get_stable_weight` and the direct-HX711 branch of the feeder's
 * `get_weight`: sort the samples, drop the lowest and highest 40 percent
 * (at least three from each end) and take the middle of what is left,
 * falling back to the middle of all samples when fewer than three remain.
 */
module StableWeight {
  import opened Sorting

  /**
   * `max(3, int(samples * 0.4))`. For a non-negative sample count the
   * truncated product equals `(2 * samples) / 5`.
   */
  function OutliersToRemove(samples: nat): (k: nat)
    ensures k >= 3
    ensures 5 * k <= 2 * samples || k == 3
    ensures 2 * samples < 5 * (k + 1)
  {
    var fraction := (2 * samples) / 5;
    if fraction > 3 then fraction else 3
  }

  /** A slice bound as Python reads it: a negative bound counts from the end, then it is clamped to the list. */
  function SliceBound(b: int, n: nat): (r: nat)
    ensures r <= n
    ensures 0 <= b <= n ==> r == b
    ensures -(n as int) <= b < 0 ==> r == b + n
  {
    var shifted := if b < 0 then b + n else b;
    if shifted < 0 then 0 else if shifted > n then n else shifted
  }

  /** Python's slice `s[i:j]`: the elements between the two bounds, empty once they cross. */
  function PySlice(s: seq<real>, i: int, j: int): seq<real>
  {
    var lo := SliceBound(i, |s|);
    var hi := SliceBound(j, |s|);
    if hi <= lo then [] else s[lo..hi]
  }

  /**
   * `s[k:-k]` for `k >= 1`, which drops `k` elements from each end: the
   * middle of the list, or nothing when the two ends overlap.
   */
  function TrimBoth(s: seq<real>, k: nat): (t: seq<real>)
    requires k >= 1
    ensures t == PySlice(s, k, -(k as int))
    ensures |t| == if 2 * k <= |s| then |s| - 2 * k else 0
  {
    if 2 * k <= |s| then s[k..|s| - k] else []
  }

  /**
   * The value the filter keeps from the sorted readings. Whichever branch
   * is taken, it is the element at index `len // 2`.
   */
  function TrimmedMedian(sorted: seq<real>): (w: real)
    requires |sorted| >= 1
    ensures w == sorted[|sorted| / 2]
  {
    var k := OutliersToRemove(|sorted|);
    var trimmed := TrimBoth(sorted, k);
    if |trimmed| >= 3 then trimmed[|trimmed| / 2]
    else sorted[|sorted| / 2]
  }

  /**
   * Whether the filter uses the middle of the trimmed slice rather than
   * the fallback: at least three samples remain once `k` are dropped from
   * each end.
   */
  predicate UsesTrimmedSlice(samples: nat)
  {
    var k := OutliersToRemove(samples);
    2 * k <= samples && samples - 2 * k >= 3
  }

  /** The slice the filter measures is long enough exactly when `UsesTrimmedSlice` holds. */
  lemma TrimmedSliceLength(sorted: seq<real>)
    ensures |TrimBoth(sorted, OutliersToRemove(|sorted|))| >= 3 <==> UsesTrimmedSlice(|sorted|)
  {
  }

  /**
   * Ten samples, as the legacy loop requests: four are dropped from each
   * end, two remain, and the fallback branch is the one taken.
   */
  lemma TenSamplesFallBack(s: seq<real>)
    requires |s| == 10
    ensures OutliersToRemove(10) == 4
    ensures |TrimBoth(s, 4)| == 2
    ensures !UsesTrimmedSlice(10)
  {
  }

  /**
   * The trimmed slice is used for the default 35 samples (seven values
   * remain) and in general for 9 samples or for 11 and more; for 10 and for
   * at most 8 samples the filter falls back to the overall middle.
   */
  lemma {:induction false} TrimmedSliceUse(samples: nat)
    ensures UsesTrimmedSlice(samples) <==> samples == 9 || samples >= 11
  {
    var k := OutliersToRemove(samples);
    if samples >= 15 {
      assert k == (2 * samples) / 5;
      assert 5 * k <= 2 * samples;
      assert samples - 2 * k >= 3;
    } else if samples >= 11 {
      assert k == 4 || k == 5;
    } else {
      assert k == 3 || k == 4;
    }
  }

  /**
   * The sample-collecting loop of both filters: `samples` readings are
   * taken from the load cell (here `raw`, in the order they arrive),
   * appended to a list, sorted and filtered. The result is the median
   * element `sorted(readings)[len // 2]`, one of the readings taken.
   */
  method CollectAndFilter(raw: seq<real>) returns (w: real)
    requires |raw| >= 1
    ensures w == Sort(raw)[|raw| / 2]
    ensures w in raw
  {
    var readings: seq<real> := [];
    var i := 0;
    while i < |raw|
      invariant 0 <= i <= |raw|
      invariant readings == raw[..i]
    {
      readings := readings + [raw[i]];
      i := i + 1;
    }
    assert readings == raw;
    readings := Sort(readings);
    w := TrimmedMedian(readings);
    SortedElementFromInput(raw, |raw| / 2);
  }
}
