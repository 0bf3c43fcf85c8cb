/** One ADC frame of the pitch-detector task in main/pitch_detector_task.cpp:
    collecting the samples with their minimum and maximum, the quiet-frame
    gate, the normalisation to [-1, 1] and the filter chain that decides
    what reaches the frequency queue. The q library's signal conditioner and
    pitch detector, and the One Euro filter, are opaque functions. */
module PitchFrame {
  import opened Wrappers
  import opened Defines
  import opened CMath
  import MF = MedianFilter
  import SM = Smoother
  import US = UserSettings

  /** FLT_MAX, the starting minimum. */
  const MaxFloat: real := 340282346638528859811704183484516925440.0

  /** The median filter the detector task uses: batch mode over a window of five. */
  const TaskMedianWindow: nat := 5

  /** The samples of one frame and the extremes the loop tracked. */
  datatype Scan = Scan(samples: seq<real>, minVal: real, maxVal: real)

  /** Walks the bytes read one conversion result at a time: sample k is the
      result at byte offset k * resultBytes. The maximum starts at 0 and the
      minimum at FLT_MAX, so an empty frame keeps those. */
  method ScanFrame(bytesRead: nat, resultBytes: nat, data: nat -> int) returns (sc: Scan)
    requires resultBytes > 0
    ensures forall k :: 0 <= k < |sc.samples| ==> k * resultBytes < bytesRead
    ensures |sc.samples| * resultBytes >= bytesRead
    ensures forall k :: 0 <= k < |sc.samples| ==> sc.samples[k] == data(k * resultBytes) as real
    ensures sc.maxVal >= 0.0 && forall k :: 0 <= k < |sc.samples| ==> sc.samples[k] <= sc.maxVal
    ensures sc.maxVal == 0.0 || exists k :: 0 <= k < |sc.samples| && sc.samples[k] == sc.maxVal
    ensures sc.minVal <= MaxFloat && forall k :: 0 <= k < |sc.samples| ==> sc.minVal <= sc.samples[k]
    ensures sc.minVal == MaxFloat || exists k :: 0 <= k < |sc.samples| && sc.samples[k] == sc.minVal
  {
    var i := 0;
    var stored: seq<real> := [];
    var maxVal := 0.0;
    var minVal := MaxFloat;
    while i < bytesRead
      invariant i == |stored| * resultBytes
      invariant forall k :: 0 <= k < |stored| ==> k * resultBytes < bytesRead
      invariant forall k :: 0 <= k < |stored| ==> stored[k] == data(k * resultBytes) as real
      invariant maxVal >= 0.0 && forall k :: 0 <= k < |stored| ==> stored[k] <= maxVal
      invariant maxVal == 0.0 || exists k :: 0 <= k < |stored| && stored[k] == maxVal
      invariant minVal <= MaxFloat && forall k :: 0 <= k < |stored| ==> minVal <= stored[k]
      invariant minVal == MaxFloat || exists k :: 0 <= k < |stored| && stored[k] == minVal
      decreases bytesRead - i
    {
      var value := data(i) as real;
      stored := stored + [value];
      if value > maxVal {
        maxVal := value;
      }
      if value < minVal {
        minVal := value;
      }
      i := i + resultBytes;
    }
    sc := Scan(stored, minVal, maxVal);
  }

  /** A frame whose range is below TUNER_READING_DIFF_MINIMUM carries no note. */
  predicate Quiet(sc: Scan) {
    sc.maxVal - sc.minVal < ReadingDiffMinimum
  }

  /** The normalisation of one sample: shift the middle of the range to 0
      and scale half the range to 1. */
  function Normalise(v: real, minVal: real, range: real): real
    requires range > 0.0
  {
    (v - range / 2.0 - minVal) / (range / 2.0)
  }

  /** The minimum goes to -1, the maximum to +1, and a value lies within
      [-1, 1] exactly when it lies within [min, max]. */
  lemma NormaliseBounds(v: real, minVal: real, maxVal: real)
    requires maxVal - minVal >= ReadingDiffMinimum
    ensures Normalise(minVal, minVal, maxVal - minVal) == -1.0
    ensures Normalise(maxVal, minVal, maxVal - minVal) == 1.0
    ensures minVal <= v <= maxVal <==> -1.0 <= Normalise(v, minVal, maxVal - minVal) <= 1.0
  {
    var mid := (maxVal - minVal) / 2.0;
    var n := Normalise(v, minVal, maxVal - minVal);
    assert n * mid == v - mid - minVal;
    if minVal <= v <= maxVal {
      assert -mid <= n * mid <= mid;
      UnitScale(n, mid);
    } else if v < minVal {
      assert n * mid < -mid;
      assert n < -1.0 by { UnitScale(n, mid); }
    } else {
      assert n * mid > mid;
      assert n > 1.0 by { UnitScale(n, mid); }
    }
  }

  /** Scaling by a positive factor keeps the comparison with +-1. */
  lemma UnitScale(n: real, m: real)
    requires m > 0.0
    ensures -m <= n * m <==> -1.0 <= n
    ensures n * m <= m <==> n <= 1.0
  {
    if n < -1.0 { assert (n + 1.0) * m < 0.0; }
    if n > 1.0 { assert (n - 1.0) * m > 0.0; }
    if -1.0 <= n { assert (n + 1.0) * m >= 0.0; }
    if n <= 1.0 { assert (1.0 - n) * m >= 0.0; }
  }

  /** Every sample of a loud frame normalises into [-1, 1]. */
  lemma FrameNormalised(sc: Scan)
    requires !Quiet(sc)
    requires forall k :: 0 <= k < |sc.samples| ==> sc.minVal <= sc.samples[k] <= sc.maxVal
    ensures forall k :: 0 <= k < |sc.samples| ==>
      -1.0 <= Normalise(sc.samples[k], sc.minVal, sc.maxVal - sc.minVal) <= 1.0
  {
    forall k | 0 <= k < |sc.samples|
      ensures -1.0 <= Normalise(sc.samples[k], sc.minVal, sc.maxVal - sc.minVal) <= 1.0
    {
      NormaliseBounds(sc.samples[k], sc.minVal, sc.maxVal);
    }
  }

  /** The library code the detector task calls: the One Euro filter (E), the pitch
      detector (D) and the signal conditioner (C), each a state and a
      transition. */
  datatype Dsp<!E, !D, !C> = Dsp(
    euReset: E -> E,
    euSetBeta: (E, real) -> E,
    euFilter: (E, real, int) -> (E, real),
    pdReset: D -> D,
    pdStep: (D, real) -> (D, bool),
    pdFrequency: D -> real,
    condition: (C, real) -> (C, real))

  /** The filter states the detector task carries from frame to frame. */
  datatype Pipeline<E, D, C> = Pipeline(
    oneEu: E, smoother: SM.Smoother, median: MF.Filter, detector: D, conditioner: C)

  /** A frame's effect: the new states and the values written, in order, to
      the frequency queue. */
  datatype FrameOut<E, D, C> = FrameOut(pipeline: Pipeline<E, D, C>, published: seq<real>)

  /** The filters the detector task starts with: the smoother is built
      with the default amount by the constructor as written. */
  function Start<E, D, C>(eu: E, pd: D, cond: C): (p: Pipeline<E, D, C>)
    ensures MF.Valid(p.median) && !p.median.movingMode && p.median.windowSize == TaskMedianWindow
    ensures p.median.values == [] && p.median.calculated == MF.NotReady
    ensures p.smoother.alpha == DefaultExpSmoothing && !p.smoother.initialized
    ensures p.oneEu == eu && p.detector == pd && p.conditioner == cond
  {
    Pipeline(eu, SM.NewAsWritten(DefaultExpSmoothing), MF.New(TaskMedianWindow, false), pd, cond)
  }

  /** A quiet frame restarts the One Euro filter, the smoother, the median
      filter and the pitch detector; the signal conditioner is kept. */
  function Restart<E, D, C>(dsp: Dsp<E, D, C>, p: Pipeline<E, D, C>): (q: Pipeline<E, D, C>)
    ensures q.oneEu == dsp.euReset(p.oneEu) && q.detector == dsp.pdReset(p.detector)
    ensures !q.smoother.initialized && q.smoother.alpha == p.smoother.alpha
    ensures q.median.values == [] && q.median.calculated == MF.NotReady
    ensures q.median.windowSize == p.median.windowSize && q.median.movingMode == p.median.movingMode
    ensures MF.WellFormed(p.median) ==> MF.Valid(q.median)
    ensures q.conditioner == p.conditioner
  {
    p.(oneEu := dsp.euReset(p.oneEu), smoother := SM.Reset(p.smoother),
       median := MF.Reset(p.median), detector := dsp.pdReset(p.detector))
  }

  /** Whole seconds of a microsecond clock reading (int64 division). */
  function Seconds(timeUs: int): (s: int)
    ensures timeUs >= 0 ==> s == timeUs / 1000000
  {
    CDiv(timeUs, 1000000)
  }

  /** The conditioner's state and output for one normalised sample. */
  function Conditioned<E, D, C>(dsp: Dsp<E, D, C>, p: Pipeline<E, D, C>, v: real,
                                minVal: real, range: real): (C, real)
    requires range > 0.0
  {
    dsp.condition(p.conditioner, Normalise(v, minVal, range))
  }

  /** The detector's state after the conditioned sample, and whether it
      reports a pitch. */
  function Detected<E, D, C>(dsp: Dsp<E, D, C>, p: Pipeline<E, D, C>, v: real,
                             minVal: real, range: real): (D, bool)
    requires range > 0.0
  {
    dsp.pdStep(p.detector, Conditioned(dsp, p, v, minVal, range).1)
  }

  /** One sample through the chain: normalise, condition, detect; a detected
      frequency goes through the One Euro filter, then the smoother, the fix
      factor and the median filter, and is written to the queue unless the
      median filter answered -1. */
  function ProcessSample<E, D, C>(dsp: Dsp<E, D, C>, p: Pipeline<E, D, C>, v: real,
                                  minVal: real, range: real, timeUs: int): (r: FrameOut<E, D, C>)
    requires range > 0.0 && MF.WellFormed(p.median)
    ensures MF.WellFormed(r.pipeline.median) && |r.published| <= 1
    ensures r.pipeline.median.windowSize == p.median.windowSize
    ensures r.pipeline.median.movingMode == p.median.movingMode
    ensures MF.Valid(p.median) ==> MF.Valid(r.pipeline.median)
    ensures MF.NotReady !in r.published
    ensures |r.published| == 1 ==> r.published[0] == r.pipeline.median.calculated
    // every sample passes the conditioner and the detector
    ensures r.pipeline.conditioner == Conditioned(dsp, p, v, minVal, range).0
    ensures r.pipeline.detector == Detected(dsp, p, v, minVal, range).0
    // no pitch: the frequency filters are untouched and nothing is written
    ensures !Detected(dsp, p, v, minVal, range).1 ==>
      && r.published == []
      && r.pipeline.oneEu == p.oneEu && r.pipeline.smoother == p.smoother && r.pipeline.median == p.median
    // a pitch: its One Euro output is smoothed, the smoothed value (the fix
    // factor is 1) goes to the median filter, and what it answers is written
    ensures Detected(dsp, p, v, minVal, range).1 ==>
      var eu := dsp.euFilter(p.oneEu, dsp.pdFrequency(r.pipeline.detector), Seconds(timeUs));
      var m := MF.AddValue(p.median, r.pipeline.smoother.value);
      && r.pipeline.oneEu == eu.0
      && r.pipeline.smoother == SM.Smooth(p.smoother, eu.1)
      && r.pipeline.median == m.filter
      && r.published == (if m.output != MF.NotReady then [m.output] else [])
  {
    var (c, s1) := Conditioned(dsp, p, v, minVal, range);
    var (d, found) := dsp.pdStep(p.detector, s1);
    if !found then
      FrameOut(p.(conditioner := c, detector := d), [])
    else
      var (e, f1) := dsp.euFilter(p.oneEu, dsp.pdFrequency(d), Seconds(timeUs));
      var sm := SM.Smooth(p.smoother, f1);
      var f2 := sm.value / FreqFixFactor;
      FixFactorIsIdentity(sm.value);
      var m := MF.AddValue(p.median, f2);
      FrameOut(Pipeline(e, sm, m.filter, d, c), if m.output != MF.NotReady then [m.output] else [])
  }

  /** The samples from index k on, with sample i taken at clock(i). */
  function ProcessSamples<E, D, C>(dsp: Dsp<E, D, C>, p: Pipeline<E, D, C>, samples: seq<real>, k: nat,
                                   minVal: real, range: real, clock: nat -> int): (r: FrameOut<E, D, C>)
    requires range > 0.0 && MF.WellFormed(p.median) && k <= |samples|
    ensures MF.WellFormed(r.pipeline.median) && |r.published| <= |samples| - k
    ensures r.pipeline.median.windowSize == p.median.windowSize
    ensures r.pipeline.median.movingMode == p.median.movingMode
    ensures MF.Valid(p.median) ==> MF.Valid(r.pipeline.median)
    ensures MF.NotReady !in r.published
    // the median filter's cache holds the last value written, unless it
    // has been cleared since
    ensures r.published != [] ==>
      r.pipeline.median.calculated in {r.published[|r.published| - 1], MF.NotReady}
    ensures r.published == [] ==> r.pipeline.median.calculated in {p.median.calculated, MF.NotReady}
    decreases |samples| - k
  {
    if k == |samples| then FrameOut(p, [])
    else
      var one := ProcessSample(dsp, p, samples[k], minVal, range, clock(k));
      var rest := ProcessSamples(dsp, one.pipeline, samples, k + 1, minVal, range, clock);
      Concat(one.published, rest.published);
      FrameOut(rest.pipeline, one.published + rest.published)
  }

  /** What the published values of two steps are, taken together. */
  lemma Concat(a: seq<real>, b: seq<real>)
    ensures |a + b| == |a| + |b|
    ensures forall x :: x in a + b <==> x in a || x in b
    ensures b != [] ==> (a + b)[|a + b| - 1] == b[|b| - 1]
    ensures b == [] ==> a + b == a
  {
  }

  /** One frame. A quiet frame writes -1 and restarts the filters. A loud
      one first takes the One Euro beta and the smoothing amount from the
      settings (the amount through setAlpha's clamp as written), then runs every
      sample through the chain. */
  function ProcessFrame<E, D, C>(dsp: Dsp<E, D, C>, p: Pipeline<E, D, C>, settings: US.Settings,
                                 sc: Scan, clock: nat -> int): (r: FrameOut<E, D, C>)
    requires MF.WellFormed(p.median)
    ensures MF.WellFormed(r.pipeline.median)
    ensures MF.Valid(p.median) ==> MF.Valid(r.pipeline.median)
    ensures Quiet(sc) ==> r.published == [MF.NotReady] && r.pipeline == Restart(dsp, p)
    ensures !Quiet(sc) ==> MF.NotReady !in r.published && |r.published| <= |sc.samples|
    ensures !Quiet(sc) ==> r.pipeline.smoother.alpha == SM.StoredAlphaAsWritten(settings.expSmoothing)
  {
    var range := sc.maxVal - sc.minVal;
    if range < ReadingDiffMinimum then
      FrameOut(Restart(dsp, p), [MF.NotReady])
    else
      var p1 := p.(oneEu := dsp.euSetBeta(p.oneEu, settings.oneEuBeta),
                   smoother := SM.SetAlphaAsWritten(p.smoother, settings.expSmoothing));
      var r := ProcessSamples(dsp, p1, sc.samples, 0, sc.minVal, range, clock);
      SmootherAlphaKept(dsp, p1, sc.samples, 0, sc.minVal, range, clock);
      r
  }

  /** The samples leave the smoothing amount alone. */
  lemma {:induction false} SmootherAlphaKept<E, D, C>(dsp: Dsp<E, D, C>, p: Pipeline<E, D, C>, samples: seq<real>, k: nat,
                                                      minVal: real, range: real, clock: nat -> int)
    requires range > 0.0 && MF.WellFormed(p.median) && k <= |samples|
    ensures ProcessSamples(dsp, p, samples, k, minVal, range, clock).pipeline.smoother.alpha == p.smoother.alpha
    decreases |samples| - k
  {
    if k < |samples| {
      var one := ProcessSample(dsp, p, samples[k], minVal, range, clock(k));
      SmootherAlphaKept(dsp, one.pipeline, samples, k + 1, minVal, range, clock);
    }
  }

  /** The stored filter-order setting plays no part: the order is fixed to
      One Euro first, then the smoother. */
  lemma FilterOrderSettingIgnored<E, D, C>(dsp: Dsp<E, D, C>, p: Pipeline<E, D, C>, settings: US.Settings,
                                           sc: Scan, clock: nat -> int, b: bool)
    requires MF.WellFormed(p.median)
    ensures ProcessFrame(dsp, p, settings.(use1EuFilterFirst := b), sc, clock) == ProcessFrame(dsp, p, settings, sc, clock)
  {
  }

  /** The fix factor is 1, so dividing by it changes nothing. */
  lemma FixFactorIsIdentity(f: real)
    ensures f / FreqFixFactor == f
  {
  }

  /** The frequency queue is a single cell that each write overwrites. */
  function QueueAfter(q: Option<real>, published: seq<real>): (r: Option<real>)
    ensures published == [] ==> r == q
    ensures published != [] ==> r == Some(published[|published| - 1])
  {
    if published == [] then q else Some(published[|published| - 1])
  }

  /** The queue after two batches of writes is the queue after all of
      them: the last write wins, and a queue that changed holds one of the
      values written. */
  lemma {:induction false} QueueLastWriteWins(q: Option<real>, a: seq<real>, b: seq<real>)
    ensures QueueAfter(QueueAfter(q, a), b) == QueueAfter(q, a + b)
    ensures QueueAfter(q, a) == q || (QueueAfter(q, a).Some? && QueueAfter(q, a).value in a)
    ensures b != [] ==> QueueAfter(QueueAfter(q, a), b) == QueueAfter(None, b)
  {
    if b != [] {
      assert (a + b)[|a + b| - 1] == b[|b| - 1];
    } else {
      assert a + b == a;
    }
    if a != [] {
      assert a[|a| - 1] in a;
    }
  }

  /** After a loud frame the queue holds -1 only if it already did: the UI
      sees "no frequency" only from a quiet frame. */
  lemma LoudFrameNeverClearsQueue<E, D, C>(dsp: Dsp<E, D, C>, p: Pipeline<E, D, C>, settings: US.Settings,
                                           sc: Scan, clock: nat -> int, q: Option<real>)
    requires MF.WellFormed(p.median) && !Quiet(sc)
    ensures QueueAfter(q, ProcessFrame(dsp, p, settings, sc, clock).published) == Some(MF.NotReady) ==> q == Some(MF.NotReady)
  {
    var pub := ProcessFrame(dsp, p, settings, sc, clock).published;
    if pub != [] {
      assert pub[|pub| - 1] in pub;
    }
  }

  /** One pass of the detector task loop: nothing happens before the settings exist
      or when the ADC read fails. */
  function TaskStep<E, D, C>(dsp: Dsp<E, D, C>, p: Pipeline<E, D, C>, q: Option<real>,
                             settings: Option<US.Settings>, read: Option<Scan>, clock: nat -> int): (r: (Pipeline<E, D, C>, Option<real>))
    requires MF.WellFormed(p.median)
    ensures MF.WellFormed(r.0.median)
    ensures settings.None? || read.None? ==> r == (p, q)
    ensures settings.Some? && read.Some? && Quiet(read.value) ==> r.1 == Some(MF.NotReady)
  {
    if settings.None? || read.None? then (p, q)
    else
      var out := ProcessFrame(dsp, p, settings.value, read.value, clock);
      (out.pipeline, QueueAfter(q, out.published))
  }
}
