/** The one array constructor both page scripts use: NumPy's `arange`. */
module Series {

  /** `np.arange(start, stop, step)` for a positive integer step: the values
      `start, start + step, ...` that lie below `stop`, in order, stopping at
      the first one that would reach `stop`. */
  function Arange(start: int, stop: int, step: int): (r: seq<int>)
    requires step > 0
    ensures forall i :: 0 <= i < |r| ==> r[i] == start + i * step && r[i] < stop
    ensures start + |r| * step >= stop
    decreases stop - start
  {
    if start >= stop then []
    else
      var rest := Arange(start + step, stop, step);
      assert forall i :: 0 <= i < |rest| ==> (start + step) + i * step == start + (i + 1) * step;
      assert (start + step) + |rest| * step == start + (|rest| + 1) * step;
      [start] + rest
  }

  /** The contract of `Arange` fixes its length: the number of steps that
      fit below `stop`. */
  lemma ArangeLength(start: int, stop: int, step: int, n: nat)
    requires step > 0
    requires start + (n - 1) * step < stop <= start + n * step
    ensures |Arange(start, stop, step)| == n
  {
    var r := Arange(start, stop, step);
    if |r| > 0 {
      assert r[|r| - 1] == start + (|r| - 1) * step;
      FewerSteps(|r| - 1, n, step);
    }
    FewerSteps(n - 1, |r|, step);
  }

  /** Multiplying by a positive step preserves strict order. */
  lemma FewerSteps(a: int, b: int, step: int)
    requires step > 0
    requires a * step < b * step
    ensures a < b
  {
  }
}
