/**
 * The activation history of a node: a fixed-length sliding window of output
 * samples (a deque in the simulator), with optional activity monitoring over
 * the newest `windowSize` samples.
 *
 * Samples are stored oldest first, so the newest sample is the last element
 * and `Get(offset)` counts back from it.
 */
module History {
  import opened Outcomes

  /** The monitoring state `setActivityMonitoring(w)` records for a window that fits: off for 0. */
  function Window(w: nat): Option<nat>
  {
    if w == 0 then None else Some(w)
  }

  /** `history.size() - offset - 1` computed in `std::size_t`: it wraps below zero. */
  function WrappedIndex(size: nat, offset: nat): (i: nat)
    ensures i < SIZE_T_RANGE
  {
    (size - offset - 1) % SIZE_T_RANGE
  }

  /** `history.at(index)` for the wrapped index: out_of_range when it is past the end. */
  function GetIn(s: seq<real>, offset: nat): (r: Result<real>)
    ensures r.Ok? <==> WrappedIndex(|s|, offset) < |s|
  {
    var i := WrappedIndex(|s|, offset);
    if i < |s| then Ok(s[i]) else Err(OutOfRange)
  }

  /**
   * For every history and offset a real deque and a real size_t can hold,
   * the wrapped index is out of range exactly when the offset reaches the
   * size, and otherwise the lookup yields the sample `offset` steps back
   * from the newest.
   */
  lemma GetInBounds(s: seq<real>, offset: nat)
    requires |s| < SIZE_T_RANGE / 2 && offset < SIZE_T_RANGE
    ensures GetIn(s, offset).Ok? <==> offset < |s|
    ensures offset < |s| ==> GetIn(s, offset) == Ok(s[|s| - 1 - offset])
  {
    if offset < |s| {
      assert WrappedIndex(|s|, offset) == |s| - offset - 1;
    } else {
      var d := |s| - offset - 1;
      assert -SIZE_T_RANGE <= d < 0;
      if d == -SIZE_T_RANGE {
        assert |s| == 0;
      } else {
        assert WrappedIndex(|s|, offset) == d + SIZE_T_RANGE;
      }
    }
  }

  /** The deque after `pop_front` and `push_back(v)`. */
  function Pushed(s: seq<real>, v: real): (r: seq<real>)
    requires |s| > 0
    ensures |r| == |s|
    ensures r[|r| - 1] == v
    ensures forall k :: 0 <= k < |s| - 1 ==> r[k] == s[k + 1]
  {
    s[1..] + [v]
  }

  /**
   * After a put of `v`, the newest sample is `v` and every older offset sees
   * what the offset one smaller saw before; the oldest sample is gone.
   */
  lemma {:induction false} GetAfterPut(s: seq<real>, v: real, k: nat)
    requires 0 < |s| < SIZE_T_RANGE / 2 && k + 1 < SIZE_T_RANGE
    ensures GetIn(Pushed(s, v), 0) == Ok(v)
    ensures k + 1 < |s| ==> GetIn(Pushed(s, v), k + 1) == GetIn(s, k)
    ensures k + 1 >= |s| ==> GetIn(Pushed(s, v), k + 1).Err?
  {
    var p := Pushed(s, v);
    GetInBounds(p, 0);
    GetInBounds(p, k + 1);
    GetInBounds(s, k);
  }

  /** After a put into a history whose length fits in `std::size_t`, `get(0)` reads the value put. */
  lemma NewestAfterPut(s: seq<real>, v: real)
    requires 0 < |s| <= SIZE_T_RANGE
    ensures GetIn(Pushed(s, v), 0) == Ok(v)
  {
    assert WrappedIndex(|s|, 0) == |s| - 1;
  }

  /** The discrete outcome of a variance or standard-deviation query. */
  datatype Spread =
    | Zero                 // fewer than two samples: the source returns 0
    | Estimated(window: nat)  // computed from the newest `window` samples

  class ActivationHistory {
    /** The samples, oldest first. */
    var samples: seq<real>
    /** `monitoredWindow`: the window size, when activity monitoring is on. */
    var monitoredWindow: Option<nat>

    /** A new history holds `historySize` zeros and does not monitor. */
    constructor (historySize: nat)
      ensures samples == seq(historySize, _ => 0.0)
      ensures monitoredWindow == None
    {
      samples := seq(historySize, _ => 0.0);
      monitoredWindow := None;
    }

    /** The copy constructor: same samples, same monitoring state. */
    constructor Copy(other: ActivationHistory)
      ensures samples == other.samples
      ensures monitoredWindow == other.monitoredWindow
    {
      samples := other.samples;
      monitoredWindow := other.monitoredWindow;
    }

    function Size(): nat
      reads this`samples
    {
      |samples|
    }

    /** `get(offset)`: the sample `offset` steps back from the newest. */
    function Get(offset: nat): (r: Result<real>)
      reads this`samples
    {
      GetIn(samples, offset)
    }

    /**
     * Whether `put` completes: the deque is not empty (pop_front on an empty
     * deque is undefined) and, when monitoring, the rolling update can read
     * `get(windowSize + 1)`.
     */
    predicate CanPut()
      reads this`samples, this`monitoredWindow
    {
      |samples| > 0 &&
      (monitoredWindow.Some? ==> GetIn(samples, monitoredWindow.value + 1).Ok?)
    }

    /**
     * `put(value)`: drop the oldest sample and append `value`. With monitoring
     * on, the rolling update first reads `get(windowSize + 1)`, which throws
     * out_of_range for a window of size - 1 or more; nothing changes then.
     */
    method Put(v: real) returns (r: Outcome)
      requires |samples| > 0
      modifies this`samples
      ensures r == Pass <==> old(CanPut())
      ensures r != Pass ==> r == Fail(OutOfRange) && samples == old(samples)
      ensures r == Pass ==> samples == Pushed(old(samples), v)
    {
      if monitoredWindow.Some? {
        var oldest := Get(monitoredWindow.value + 1);
        if oldest.Err? {
          return Fail(OutOfRange);
        }
      }
      samples := samples[1..] + [v];
      r := Pass;
    }

    /**
     * The part of `initMonitoring` that can throw: `varianceNumeratorAndSum`
     * reads `get(0)` for a window of 1 and `get(window)` for a larger one.
     */
    function InitMonitoring(window: nat): (r: Outcome)
      reads this`samples
      ensures window >= 2 ==> (r == Pass <==> Get(window).Ok?)
      ensures window == 1 ==> (r == Pass <==> Get(0).Ok?)
    {
      if window == 0 then Pass
      else if window == 1 then (if Get(0).Ok? then Pass else Fail(OutOfRange))
      else if Get(window).Ok? then Pass else Fail(OutOfRange)
    }

    /** Whether `setActivityMonitoring(window)` returns without throwing. */
    predicate AcceptsWindow(window: nat)
      reads this`samples
    {
      window == 0 || (window <= |samples| && InitMonitoring(window) == Pass)
    }

    /**
     * The monitoring state `setActivityMonitoring(window)` leaves, whether
     * it throws or not, starting from `before`: a window wider than the
     * history leaves `before`, any other is recorded.
     */
    function WindowAfter(before: Option<nat>, window: nat): Option<nat>
      reads this`samples
    {
      if window > |samples| then before else Window(window)
    }

    /**
     * `setActivityMonitoring(windowSize)`: a window larger than the history is
     * rejected with nothing changed; 0 switches monitoring off; any other
     * window switches it on and then initialises the statistics, which throws
     * (with monitoring already switched on) when the window is the whole
     * history.
     */
    method SetActivityMonitoring(windowSize: nat) returns (r: Outcome)
      modifies this`monitoredWindow
      ensures windowSize > |samples| ==> r == Fail(InvalidArgument) && monitoredWindow == old(monitoredWindow)
      ensures windowSize == 0 ==> r == Pass && monitoredWindow == None
      ensures 0 < windowSize <= |samples| ==> monitoredWindow == Some(windowSize) && r == InitMonitoring(windowSize)
      ensures (r == Pass <==> AcceptsWindow(windowSize)) && monitoredWindow == WindowAfter(old(monitoredWindow), windowSize)
    {
      if windowSize > |samples| {
        return Fail(InvalidArgument);
      }
      if windowSize == 0 {
        monitoredWindow := None;
        r := Pass;
      } else {
        monitoredWindow := Some(windowSize);
        r := InitMonitoring(windowSize);
      }
    }

    /**
     * `resize(newSize)`. ActivationHistory::resize is not part of this model;
     * the model keeps the newest samples and pads with zeros at the oldest
     * end, and only the new length is claimed.
     */
    method Resize(newSize: nat)
      modifies this`samples
      ensures |samples| == newSize
      ensures monitoredWindow == old(monitoredWindow)
    {
      if newSize <= |samples| {
        samples := samples[|samples| - newSize..];
      } else {
        samples := seq(newSize - |samples|, _ => 0.0) + samples;
      }
    }

    /** `variance(window)`: 0 below two samples; otherwise may throw from `get(window)`. */
    function VarianceOver(window: nat): (r: Result<Spread>)
      reads this
      ensures window < 2 ==> r == Ok(Zero)
      ensures r.Err? ==> r.error == OutOfRange && window >= 2 && monitoredWindow != Some(window)
      ensures window >= 2 && Get(window).Ok? ==> r == Ok(Estimated(window))
    {
      if window < 2 then Ok(Zero)
      else if monitoredWindow == Some(window) then Ok(Estimated(window))
      else if Get(window).Ok? then Ok(Estimated(window))
      else Err(OutOfRange)
    }

    /** `variance()`: the monitored window, or runtime_error when monitoring is off. */
    function Variance(): (r: Result<Spread>)
      reads this
      ensures monitoredWindow == None ==> r == Err(RuntimeError)
      ensures monitoredWindow.Some? ==> r == VarianceOver(monitoredWindow.value)
    {
      if monitoredWindow.None? then Err(RuntimeError)
      else VarianceOver(monitoredWindow.value)
    }

    /** `stddev(window)`: 0 below two samples, else derived from `variance(window)`. */
    function StdDevOver(window: nat): (r: Result<Spread>)
      reads this
      ensures window < 2 ==> r == Ok(Zero)
      ensures window >= 2 ==> (r.Ok? <==> VarianceOver(window).Ok?)
    {
      if window < 2 then Ok(Zero) else VarianceOver(window)
    }

    /** `stddev()`: the monitored window, or runtime_error when monitoring is off. */
    function StdDev(): (r: Result<Spread>)
      reads this
      ensures monitoredWindow == None ==> r == Err(RuntimeError)
      ensures monitoredWindow.Some? ==> r == StdDevOver(monitoredWindow.value)
    {
      if monitoredWindow.None? then Err(RuntimeError)
      else StdDevOver(monitoredWindow.value)
    }
  }

  /**
   * Switching monitoring on succeeds for every window up to size - 1; a
   * window of two or more that covers the whole history throws, although
   * `setActivityMonitoring` accepted it and left monitoring switched on.
   */
  lemma InitMonitoringOutcome(h: ActivationHistory, w: nat)
    requires 0 < w <= |h.samples| < SIZE_T_RANGE / 2
    ensures h.InitMonitoring(w) == Pass <==> (w == 1 || w < |h.samples|)
  {
    GetInBounds(h.samples, w);
    GetInBounds(h.samples, 0);
  }

  /**
   * For a history a deque can hold, `setActivityMonitoring(w)` returns
   * without throwing exactly when `w` is 0, fits strictly inside the
   * history, or is 1 on a history of one sample.
   */
  lemma AcceptsWindowBySize(h: ActivationHistory, w: nat)
    requires |h.samples| < SIZE_T_RANGE / 2
    ensures h.AcceptsWindow(w) <==> w == 0 || w < |h.samples| || w == |h.samples| == 1
  {
    if 0 < w <= |h.samples| {
      InitMonitoringOutcome(h, w);
    }
  }

  /**
   * Enabling monitoring never makes `put` throw on its own when the window
   * leaves room for the rolling update; a window of size - 1 or size does.
   */
  lemma {:induction false} PutFailsForWideWindows(s: seq<real>, w: nat)
    requires 0 < |s| < SIZE_T_RANGE / 2 && w <= |s|
    ensures GetIn(s, w + 1).Ok? <==> w + 2 <= |s|
  {
    GetInBounds(s, w + 1);
  }
}
