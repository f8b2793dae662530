/**
 * The live batch health pipeline of the optimization overview page:
 * a baseline temperature trend with its golden tunnel, the live window that
 * shows a prefix of it shifted by two simulation offsets, the health score
 * that penalises out-of-tunnel samples, the predicted end-of-batch quality,
 * and the simulation state driven by the timer tick, play/pause and reset.
 *
 * Measurements are exact reals. The sine profile and the random noise of the
 * generator are inputs (`profile`, `noise`), so that the rest is deterministic.
 */
module OptimizationOverview {

  /** One trend sample; the pressure and shear channels are always 0 here. */
  datatype DataPoint = DataPoint(
    time: int,
    temp: real,
    pressure: real,
    shear: real,
    tempUpper: real,
    tempLower: real,
    pressUpper: real,
    pressLower: real)

  /** The result of scoring a window. */
  datatype Health = Health(score: int, alarms: nat)

  /** Predicted end-of-batch quality attributes. */
  datatype Prediction = Prediction(ph: real, diameter: real)

  /** The two tabs of the page; the live simulation runs on `Current`. */
  datatype Tab = Previous | Current

  /** Number of samples generated when the page is loaded. */
  const SeriesLength: nat := 60
  /** Half the width of the golden tunnel around the ideal temperature. */
  const TunnelHalfWidth: real := 5.0
  /** Where the live cursor starts. */
  const InitialTimeIndex: nat := 30

  function Min(a: nat, b: nat): nat { if a <= b then a else b }

  // ---------------------------------------------------------------------
  // Baseline series

  /** The sample generated for index `i` from the ideal profile and the noise drawn for it. */
  function BaselinePoint(i: int, profile: int -> real, noise: int -> real): DataPoint
  {
    DataPoint(i, profile(i) + noise(i), 0.0, 0.0,
              profile(i) + TunnelHalfWidth, profile(i) - TunnelHalfWidth, 0.0, 0.0)
  }

  /** The series the generator produces, as a value. */
  function Baseline(count: nat, profile: int -> real, noise: int -> real): seq<DataPoint>
  {
    seq(count, i requires 0 <= i < count => BaselinePoint(i, profile, noise))
  }

  /** Builds the trend series point by point, as the page does once at load time. */
  method GeneratePoints(count: nat, profile: int -> real, noise: int -> real)
    returns (data: seq<DataPoint>)
    ensures data == Baseline(count, profile, noise)
    ensures |data| == count
    ensures forall i :: 0 <= i < count ==>
      && data[i].time == i
      && data[i].temp == profile(i) + noise(i)
      && data[i].tempUpper == profile(i) + TunnelHalfWidth
      && data[i].tempLower == profile(i) - TunnelHalfWidth
      && data[i].pressure == 0.0 && data[i].shear == 0.0
      && data[i].pressUpper == 0.0 && data[i].pressLower == 0.0
  {
    data := [];
    for i := 0 to count
      invariant |data| == i
      invariant forall k :: 0 <= k < i ==> data[k] == BaselinePoint(k, profile, noise)
    {
      var ideal := profile(i);
      var tempUpper := ideal + TunnelHalfWidth;
      var tempLower := ideal - TunnelHalfWidth;
      var actualTemp := ideal + noise(i);
      data := data + [DataPoint(i, actualTemp, 0.0, 0.0, tempUpper, tempLower, 0.0, 0.0)];
    }
  }

  // ---------------------------------------------------------------------
  // Live window

  /** A sample with the simulated drift added to its temperature and the tunnel adjustment to its upper bound. */
  function Shifted(p: DataPoint, tempOffset: real, upperOffset: real): DataPoint
  {
    p.(temp := p.temp + tempOffset, tempUpper := p.tempUpper + upperOffset)
  }

  /** The first `timeIndex` samples (all of them if there are fewer), each shifted by the two offsets. */
  function Window(data: seq<DataPoint>, timeIndex: nat, tempOffset: real, upperOffset: real): (w: seq<DataPoint>)
    ensures |w| == Min(timeIndex, |data|)
    ensures forall k :: 0 <= k < |w| ==>
      && w[k].time == data[k].time
      && w[k].tempLower == data[k].tempLower
      && w[k].temp == data[k].temp + tempOffset
      && w[k].tempUpper == data[k].tempUpper + upperOffset
      && w[k].pressure == data[k].pressure && w[k].shear == data[k].shear
      && w[k].pressUpper == data[k].pressUpper && w[k].pressLower == data[k].pressLower
  {
    var n := Min(timeIndex, |data|);
    seq(n, k requires 0 <= k < n => Shifted(data[k], tempOffset, upperOffset))
  }

  /** Without offsets the window is exactly the prefix of the series. */
  lemma WindowWithoutOffsets(data: seq<DataPoint>, timeIndex: nat)
    ensures Window(data, timeIndex, 0.0, 0.0) == data[..Min(timeIndex, |data|)]
  {
    var w := Window(data, timeIndex, 0.0, 0.0);
    forall k | 0 <= k < |w| ensures w[k] == data[k] {
      assert w[k] == Shifted(data[k], 0.0, 0.0);
    }
  }

  /** One more step of the cursor appends exactly the next shifted sample. */
  lemma WindowGrows(data: seq<DataPoint>, timeIndex: nat, tempOffset: real, upperOffset: real)
    requires timeIndex < |data|
    ensures Window(data, timeIndex + 1, tempOffset, upperOffset)
         == Window(data, timeIndex, tempOffset, upperOffset) + [Shifted(data[timeIndex], tempOffset, upperOffset)]
  {
    var a := Window(data, timeIndex + 1, tempOffset, upperOffset);
    var b := Window(data, timeIndex, tempOffset, upperOffset) + [Shifted(data[timeIndex], tempOffset, upperOffset)];
    forall k | 0 <= k < |a| ensures a[k] == b[k] {
      assert a[k] == Shifted(data[k], tempOffset, upperOffset);
    }
  }

  // ---------------------------------------------------------------------
  // Health score

  /** A sample lies outside the golden tunnel. */
  predicate OutOfTunnel(p: DataPoint)
  {
    p.temp > p.tempUpper || p.temp < p.tempLower
  }

  /** Number of out-of-tunnel samples, counted from the front as the page does. */
  function CountAlarms(points: seq<DataPoint>): (n: nat)
    ensures n <= |points|
  {
    if points == [] then 0
    else CountAlarms(points[..|points| - 1]) + (if OutOfTunnel(points[|points| - 1]) then 1 else 0)
  }

  /** The positions of the out-of-tunnel samples: the reference definition of the alarm count. */
  function AlarmIndices(points: seq<DataPoint>): set<int>
  {
    set k | 0 <= k < |points| && OutOfTunnel(points[k])
  }

  lemma {:induction false} CountAlarmsIsAlarmIndices(points: seq<DataPoint>)
    ensures CountAlarms(points) == |AlarmIndices(points)|
  {
    if points != [] {
      var n := |points| - 1;
      var front := points[..n];
      CountAlarmsIsAlarmIndices(front);
      if OutOfTunnel(points[n]) {
        assert AlarmIndices(points) == AlarmIndices(front) + {n};
      } else {
        assert AlarmIndices(points) == AlarmIndices(front);
      }
    } else {
      assert AlarmIndices(points) == {};
    }
  }

  /** Samples inside the tunnel raise no alarm. */
  lemma {:induction false} CountAlarmsNone(points: seq<DataPoint>)
    requires forall k :: 0 <= k < |points| ==> !OutOfTunnel(points[k])
    ensures CountAlarms(points) == 0
  {
    if points != [] {
      CountAlarmsNone(points[..|points| - 1]);
    }
  }

  /** Samples all outside the tunnel raise one alarm each. */
  lemma {:induction false} CountAlarmsAll(points: seq<DataPoint>)
    requires forall k :: 0 <= k < |points| ==> OutOfTunnel(points[k])
    ensures CountAlarms(points) == |points|
  {
    if points != [] {
      CountAlarmsAll(points[..|points| - 1]);
    }
  }

  /** If every alarm of `fewer` is also an alarm of `more`, position by position, it has no more alarms. */
  lemma {:induction false} CountAlarmsPointwise(fewer: seq<DataPoint>, more: seq<DataPoint>)
    requires |fewer| == |more|
    requires forall k :: 0 <= k < |fewer| && OutOfTunnel(fewer[k]) ==> OutOfTunnel(more[k])
    ensures CountAlarms(fewer) <= CountAlarms(more)
  {
    if fewer != [] {
      var n := |fewer| - 1;
      CountAlarmsPointwise(fewer[..n], more[..n]);
    }
  }

  /** JavaScript's Math.round: the integer nearest to x, halves rounded up. */
  function JsRound(x: real): (r: int)
    ensures r as real - 0.5 <= x < r as real + 0.5
  {
    (x + 0.5).Floor
  }

  function Clamp(x: int, lo: int, hi: int): int
    requires lo <= hi
  {
    if x < lo then lo else if x > hi then hi else x
  }

  /** The unrounded score: 100 minus twice the violation rate in percent; an empty window counts as one sample. */
  function RawScore(alarms: nat, n: nat): real
  {
    var total := if n == 0 then 1 else n;
    100.0 - (alarms as real / total as real) * 100.0 * 2.0
  }

  /** The health score of a window of `n` samples of which `alarms` are out of the tunnel. */
  function Score(alarms: nat, n: nat): (s: int)
    ensures 0 <= s <= 100
  {
    Clamp(JsRound(RawScore(alarms, n)), 0, 100)
  }

  /** The health assessment of a window, as a value. */
  function Assess(points: seq<DataPoint>): (h: Health)
    ensures h.alarms == |AlarmIndices(points)| && h.alarms <= |points|
    ensures 0 <= h.score <= 100
    ensures h.alarms == 0 ==> h.score == 100
  {
    CountAlarmsIsAlarmIndices(points);
    ScoreWithoutAlarms(|points|);
    var alarms := CountAlarms(points);
    Health(Score(alarms, |points|), alarms)
  }

  /** Scores a window with a mutable counter, as the page does. */
  method HealthStats(points: seq<DataPoint>) returns (h: Health)
    ensures h == Assess(points)
    ensures h.alarms == |AlarmIndices(points)| && h.alarms <= |points|
    ensures 0 <= h.score <= 100
  {
    var outOfSpecCount := 0;
    for i := 0 to |points|
      invariant outOfSpecCount == CountAlarms(points[..i])
    {
      var pt := points[i];
      if pt.temp > pt.tempUpper || pt.temp < pt.tempLower {
        outOfSpecCount := outOfSpecCount + 1;
      }
      assert points[..i + 1][..i] == points[..i];
    }
    assert points[..|points|] == points;
    CountAlarmsIsAlarmIndices(points);
    h := Health(Score(outOfSpecCount, |points|), outOfSpecCount);
  }

  /** An empty window is perfectly healthy. */
  lemma EmptyWindowIsHealthy()
    ensures Assess([]) == Health(100, 0)
  {
    assert RawScore(0, 0) == 100.0;
  }

  /** No violation gives the full score, whatever the window length. */
  lemma ScoreWithoutAlarms(n: nat)
    ensures Score(0, n) == 100
  {
    assert RawScore(0, n) == 100.0;
  }

  /** A quotient of naturals grows with its numerator. */
  lemma RateMonotone(a: nat, b: nat, n: nat)
    requires a <= b && 0 < n
    ensures a as real / n as real <= b as real / n as real
  {
    var d := (b - a) as real / n as real;
    assert d * n as real == (b - a) as real;
    assert d >= 0.0;
    assert b as real / n as real == a as real / n as real + d;
  }

  /** For a fixed window length, more violations never give a higher score. */
  lemma ScoreAntitone(fewer: nat, more: nat, n: nat)
    requires fewer <= more
    ensures Score(more, n) <= Score(fewer, n)
  {
    var total := if n == 0 then 1 else n;
    RateMonotone(fewer, more, total);
    assert RawScore(more, n) <= RawScore(fewer, n);
  }

  /** A violation rate of at least one half. */
  lemma HalfRate(alarms: nat, n: nat)
    requires 0 < n <= 2 * alarms
    ensures alarms as real / n as real >= 0.5
  {
    var q := alarms as real / n as real;
    assert q * n as real == alarms as real;
    if q < 0.5 {
      assert (0.5 - q) * n as real > 0.0;
    }
  }

  /** When at least half the samples violate the tunnel, the score is 0. */
  lemma ScoreZeroAtHalfViolations(alarms: nat, n: nat)
    requires 0 < n <= 2 * alarms
    ensures Score(alarms, n) == 0
  {
    HalfRate(alarms, n);
    assert RawScore(alarms, n) <= 0.0;
  }

  /** One violation in ten samples scores 80. */
  lemma ScoreOneInTen()
    ensures Score(1, 10) == 80
  {
    assert RawScore(1, 10) == 80.0;
  }

  // ---------------------------------------------------------------------
  // Predicted quality

  /** The predicted pH and diameter grow away from 7.2 and 120 with the health deficit. */
  function PredictCqa(score: int): (p: Prediction)
    ensures 0 <= score <= 100 ==> 6.7 <= p.ph <= 7.2 && 120.0 <= p.diameter <= 170.0
    ensures score == 100 <==> p == Prediction(7.2, 120.0)
    ensures score == 0 ==> p == Prediction(6.7, 170.0)
    ensures p.diameter - 120.0 == 100.0 * (7.2 - p.ph)
  {
    var deviation := (100 - score) as real / 200.0;
    Prediction(7.2 - deviation, 120.0 + deviation * 100.0)
  }

  /** A lower score never predicts a pH or a diameter closer to the nominal values. */
  lemma PredictionAntitone(lower: int, higher: int)
    requires lower <= higher
    ensures PredictCqa(lower).ph <= PredictCqa(higher).ph
    ensures PredictCqa(lower).diameter >= PredictCqa(higher).diameter
  {
    assert (100 - lower) as real >= (100 - higher) as real;
  }

  // ---------------------------------------------------------------------
  // Timer tick

  /** The cursor update of one tick: back to 0 once the whole series is shown, otherwise one further. */
  function Advance(prev: nat, length: nat): (next: nat)
    ensures next <= length
    ensures next == 0 <==> prev >= length
    ensures next != 0 ==> next == prev + 1
  {
    if prev >= length then 0 else prev + 1
  }

  /** The cursor after `k` ticks from `start`. */
  function Ticks(start: nat, length: nat, k: nat): nat
  {
    if k == 0 then start else Advance(Ticks(start, length, k - 1), length)
  }

  /** From 0, each of the first `length` ticks shows one more sample. */
  lemma {:induction false} TicksFromZero(length: nat, k: nat)
    requires k <= length
    ensures Ticks(0, length, k) == k
  {
    if k > 0 {
      TicksFromZero(length, k - 1);
    }
  }

  /** The cursor cycles with period `length + 1`: the full series is shown once before it wraps. */
  lemma TicksCycle(length: nat)
    ensures Ticks(0, length, length) == length
    ensures Ticks(0, length, length + 1) == 0
  {
    TicksFromZero(length, length);
  }

  // ---------------------------------------------------------------------
  // Properties of the generated series

  /** Noise bounded as Math.random() * 4 - 2 bounds it. */
  ghost predicate NoiseBounded(noise: int -> real, count: nat)
  {
    forall i :: 0 <= i < count ==> -2.0 <= noise(i) <= 2.0
  }

  /** With no drift and no tunnel adjustment the generated series never leaves its tunnel. */
  lemma BaselineIsHealthy(count: nat, profile: int -> real, noise: int -> real, timeIndex: nat)
    requires NoiseBounded(noise, count)
    ensures Assess(Window(Baseline(count, profile, noise), timeIndex, 0.0, 0.0)) == Health(100, 0)
  {
    var w := Window(Baseline(count, profile, noise), timeIndex, 0.0, 0.0);
    forall k | 0 <= k < |w| ensures !OutOfTunnel(w[k]) {
      assert w[k] == Shifted(BaselinePoint(k, profile, noise), 0.0, 0.0);
    }
    CountAlarmsNone(w);
    ScoreWithoutAlarms(|w|);
  }

  /** A drift of more than 7 degrees beyond the adjusted tunnel puts every shown sample out of it. */
  lemma LargeDriftIsUnhealthy(count: nat, profile: int -> real, noise: int -> real,
                              timeIndex: nat, tempOffset: real, upperOffset: real)
    requires NoiseBounded(noise, count)
    requires tempOffset - upperOffset > 7.0 || tempOffset < -7.0
    requires 0 < Min(timeIndex, count)
    ensures Assess(Window(Baseline(count, profile, noise), timeIndex, tempOffset, upperOffset))
         == Health(0, Min(timeIndex, count))
  {
    var w := Window(Baseline(count, profile, noise), timeIndex, tempOffset, upperOffset);
    forall k | 0 <= k < |w| ensures OutOfTunnel(w[k]) {
      assert w[k] == Shifted(BaselinePoint(k, profile, noise), tempOffset, upperOffset);
    }
    CountAlarmsAll(w);
    ScoreZeroAtHalfViolations(|w|, |w|);
  }

  /** Raising the upper bound never lowers the health score. */
  lemma WideningTunnelNeverLowersScore(data: seq<DataPoint>, timeIndex: nat, tempOffset: real,
                                       narrow: real, wide: real)
    requires narrow <= wide
    ensures Assess(Window(data, timeIndex, tempOffset, wide)).score
         >= Assess(Window(data, timeIndex, tempOffset, narrow)).score
  {
    var a := Window(data, timeIndex, tempOffset, wide);
    var b := Window(data, timeIndex, tempOffset, narrow);
    CountAlarmsPointwise(a, b);
    ScoreAntitone(CountAlarms(a), CountAlarms(b), |a|);
  }

  /** Each tick adds one sample and at most one alarm to the live window. */
  lemma TickAddsAtMostOneAlarm(data: seq<DataPoint>, timeIndex: nat, tempOffset: real, upperOffset: real)
    requires timeIndex < |data|
    ensures CountAlarms(Window(data, timeIndex + 1, tempOffset, upperOffset))
         == CountAlarms(Window(data, timeIndex, tempOffset, upperOffset))
            + (if OutOfTunnel(Shifted(data[timeIndex], tempOffset, upperOffset)) then 1 else 0)
  {
    WindowGrows(data, timeIndex, tempOffset, upperOffset);
    var w := Window(data, timeIndex + 1, tempOffset, upperOffset);
    assert w[..|w| - 1] == Window(data, timeIndex, tempOffset, upperOffset);
  }

  // ---------------------------------------------------------------------
  // Simulation state of the page

  class Simulation {
    /** The series generated at load time; it never changes afterwards. */
    const data: seq<DataPoint>
    var activeTab: Tab
    var isPlaying: bool
    var timeIndex: nat
    var tempOffset: real
    var upperBoundOffset: real

    ghost predicate Valid()
      reads this
    {
      timeIndex <= |data|
    }

    /** The page as it first renders: the live tab, playing, cursor at 30, no offsets. */
    constructor (profile: int -> real, noise: int -> real)
      ensures Valid()
      ensures data == Baseline(SeriesLength, profile, noise)
      ensures activeTab == Current && isPlaying && timeIndex == InitialTimeIndex
      ensures tempOffset == 0.0 && upperBoundOffset == 0.0
    {
      var points := GeneratePoints(SeriesLength, profile, noise);
      data := points;
      activeTab := Current;
      isPlaying := true;
      timeIndex := InitialTimeIndex;
      tempOffset := 0.0;
      upperBoundOffset := 0.0;
    }

    /** The samples the live chart shows. */
    function CurrentBatchData(): (d: seq<DataPoint>)
      reads this
      ensures |d| == Min(timeIndex, |data|)
      ensures Valid() ==> |d| == timeIndex
      ensures forall k :: 0 <= k < |d| ==>
        d[k].temp == data[k].temp + tempOffset && d[k].tempUpper == data[k].tempUpper + upperBoundOffset
    {
      Window(data, timeIndex, tempOffset, upperBoundOffset)
    }

    /** The health card's score and alarm count for the shown samples. */
    function CurrentHealth(): (h: Health)
      reads this
      ensures h.alarms == |AlarmIndices(CurrentBatchData())| && h.alarms <= |CurrentBatchData()|
      ensures 0 <= h.score <= 100
      ensures h.alarms == 0 ==> h.score == 100
    {
      Assess(CurrentBatchData())
    }

    /** The predicted quality card, driven by the current score. */
    function CurrentPrediction(): (p: Prediction)
      reads this
      ensures 6.7 <= p.ph <= 7.2 && 120.0 <= p.diameter <= 170.0
      ensures p == Prediction(7.2, 120.0) <==> CurrentHealth().score == 100
    {
      PredictCqa(CurrentHealth().score)
    }

    /** One timer tick; the timer runs only while playing on the live tab. */
    method Tick()
      requires Valid()
      modifies this`timeIndex
      ensures Valid()
      ensures timeIndex == if isPlaying && activeTab == Current
                           then Advance(old(timeIndex), |data|) else old(timeIndex)
    {
      if isPlaying && activeTab == Current {
        timeIndex := if timeIndex >= |data| then 0 else timeIndex + 1;
      }
    }

    /** The play/pause button, shown on the live tab only. */
    method TogglePlay()
      requires Valid() && activeTab == Current
      modifies this`isPlaying
      ensures Valid()
      ensures isPlaying == !old(isPlaying)
    {
      isPlaying := !isPlaying;
    }

    /** The reset button, shown on the live tab only: cursor and both offsets back to 0; playing or not is kept. */
    method Reset()
      requires activeTab == Current
      modifies this`timeIndex, this`tempOffset, this`upperBoundOffset
      ensures Valid()
      ensures timeIndex == 0 && tempOffset == 0.0 && upperBoundOffset == 0.0
      ensures CurrentBatchData() == []
      ensures CurrentHealth() == Health(100, 0)
      ensures CurrentPrediction() == Prediction(7.2, 120.0)
    {
      timeIndex := 0;
      tempOffset := 0.0;
      upperBoundOffset := 0.0;
      EmptyWindowIsHealthy();
    }

    /** The tab buttons. */
    method SelectTab(tab: Tab)
      requires Valid()
      modifies this`activeTab
      ensures Valid()
      ensures activeTab == tab
    {
      activeTab := tab;
    }

    /** The drift slider, shown on the live tab only. */
    method SetTempOffset(value: real)
      requires Valid() && activeTab == Current
      modifies this`tempOffset
      ensures Valid()
      ensures tempOffset == value
    {
      tempOffset := value;
    }

    /** The tunnel-width slider, shown on the live tab only. */
    method SetUpperBoundOffset(value: real)
      requires Valid() && activeTab == Current
      modifies this`upperBoundOffset
      ensures Valid()
      ensures upperBoundOffset == value
    {
      upperBoundOffset := value;
    }
  }
}
