/** The arithmetic of one tick of the synthetic sensor: a random-walk step on
    heart rate and skin conductance, mean reversion, a hard clamp, and the
    weighted stress score derived from the clamped values. The random deltas
    are parameters; their ranges are those of (Math.random() - 0.5) * 4 and
    (Math.random() - 0.5) * 0.15. */
module Sensor {
  import opened Types
  import opened JsMath

  const InitialHeartRate: real := 75.0
  const InitialGsr: real := 3.5
  const InitialStress: real := 40.0

  const HeartRateMin: real := 50.0
  const HeartRateMax: real := 140.0
  const GsrMin: real := 0.5
  const GsrMax: real := 15.0

  /** The range of the heart-rate random step. */
  predicate HeartRateDelta(d: real) { -2.0 <= d < 2.0 }

  /** The range of the conductance random step. */
  predicate GsrDelta(d: real) { -0.075 <= d < 0.075 }

  /** Both walkers inside their physiological clamp ranges. */
  predicate InRange(hr: real, gsr: real)
  {
    HeartRateMin <= hr <= HeartRateMax && GsrMin <= gsr <= GsrMax
  }

  /** The two mean-reversion nudges, applied one after the other. */
  function RevertHeartRate(x: real): (r: real)
    ensures x > 100.0 ==> r == x - 1.0
    ensures x < 60.0 ==> r == x + 1.0
    ensures 60.0 <= x <= 100.0 ==> r == x
  {
    var a := if x > 100.0 then x - 1.0 else x;
    if a < 60.0 then a + 1.0 else a
  }

  function RevertGsr(x: real): (r: real)
    ensures x > 8.0 ==> r == x - 0.1
    ensures x < 1.0 ==> r == x + 0.1
    ensures 1.0 <= x <= 8.0 ==> r == x
  {
    var a := if x > 8.0 then x - 0.1 else x;
    if a < 1.0 then a + 0.1 else a
  }

  /** Heart rate after one tick: step, reversion, clamp. */
  function NextHeartRate(hr: real, delta: real): (r: real)
    ensures HeartRateMin <= r <= HeartRateMax
  {
    Clamp(HeartRateMin, HeartRateMax, RevertHeartRate(hr + delta))
  }

  /** Skin conductance after one tick: step, reversion, clamp. */
  function NextGsr(gsr: real, delta: real): (r: real)
    ensures GsrMin <= r <= GsrMax
  {
    Clamp(GsrMin, GsrMax, RevertGsr(gsr + delta))
  }

  /** The synthetic stress: 60% normalised heart rate plus 40% normalised
      conductance, scaled to percent. Within the clamp ranges it lies in
      [0, 118]; the conductance term is not capped at 1. */
  function SyntheticStress(hr: real, gsr: real): (s: real)
    ensures InRange(hr, gsr) ==> 0.0 <= s <= 118.0
  {
    var normalizedHR := (hr - 50.0) / 90.0;
    var normalizedGSR := (gsr - 0.5) / 10.0;
    (normalizedHR * 0.6 + normalizedGSR * 0.4) * 100.0
  }

  /** Every field of a point inside the range the synthetic sensor produces. */
  predicate Plausible(p: BiometricDataPoint)
  {
    HeartRateMin <= p.heartRate <= HeartRateMax
    && GsrMin <= p.gsr <= GsrMax
    && 0.0 <= p.stressScore <= 118.0
  }

  /** The point a tick emits: rounded heart rate, conductance to two decimals,
      rounded stress computed from the unrounded clamped values. */
  function MakePoint(now: int, hr: real, gsr: real): (p: BiometricDataPoint)
    ensures p.timestamp == now
    ensures p.heartRate == Round(hr) as real && p.gsr == ToFixed2(gsr)
    ensures -0.5 < p.heartRate - hr <= 0.5
    ensures -0.005 <= p.gsr - gsr <= 0.005
    ensures p.stressScore == Round(SyntheticStress(hr, gsr)) as real
  {
    BiometricDataPoint(now, Round(hr) as real, ToFixed2(gsr), Round(SyntheticStress(hr, gsr)) as real)
  }

  /** A point made from walkers inside the clamp ranges is plausible. */
  lemma MakePointPlausible(now: int, hr: real, gsr: real)
    requires InRange(hr, gsr)
    ensures Plausible(MakePoint(now, hr, gsr))
  {
    RoundWithin(hr, 50, 140);
    ToFixed2Within(gsr, 50, 1500);
    RoundWithin(SyntheticStress(hr, gsr), 0, 118);
  }

  /** Mean reversion acts after the random step and before the clamp. */
  lemma HeartRateReversion(hr: real, delta: real)
    ensures hr + delta > 100.0 ==> NextHeartRate(hr, delta) == Clamp(HeartRateMin, HeartRateMax, hr + delta - 1.0)
    ensures hr + delta < 60.0 ==> NextHeartRate(hr, delta) == Clamp(HeartRateMin, HeartRateMax, hr + delta + 1.0)
    ensures 60.0 <= hr + delta <= 100.0 ==> NextHeartRate(hr, delta) == hr + delta
  {
  }

  lemma GsrReversion(gsr: real, delta: real)
    ensures gsr + delta > 8.0 ==> NextGsr(gsr, delta) == Clamp(GsrMin, GsrMax, gsr + delta - 0.1)
    ensures gsr + delta < 1.0 ==> NextGsr(gsr, delta) == Clamp(GsrMin, GsrMax, gsr + delta + 0.1)
    ensures 1.0 <= gsr + delta <= 8.0 ==> NextGsr(gsr, delta) == gsr + delta
  {
  }

  /** With deltas in their random ranges, one tick moves heart rate by at
      most 3 and conductance by at most 0.175. */
  lemma TickStepIsSmall(hr: real, gsr: real, hrDelta: real, gsrDelta: real)
    requires InRange(hr, gsr) && HeartRateDelta(hrDelta) && GsrDelta(gsrDelta)
    ensures -3.0 <= NextHeartRate(hr, hrDelta) - hr < 3.0
    ensures -0.175 <= NextGsr(gsr, gsrDelta) - gsr < 0.175
  {
  }

  /** Stress grows with either measure. */
  lemma StressMonotone(hr1: real, gsr1: real, hr2: real, gsr2: real)
    requires hr1 <= hr2 && gsr1 <= gsr2
    ensures SyntheticStress(hr1, gsr1) <= SyntheticStress(hr2, gsr2)
  {
  }

  /** The score is not capped at 100: at the top of both ranges it is 118. */
  lemma StressExceedsHundred()
    ensures InRange(HeartRateMax, GsrMax)
    ensures SyntheticStress(HeartRateMax, GsrMax) == 118.0
    ensures Round(SyntheticStress(HeartRateMax, GsrMax)) == 118
  {
  }

  /** At heart rate 90 and conductance 4.0 the synthetic score rounds to 41. */
  lemma StressAtNinetyAndFour()
    ensures Round(SyntheticStress(90.0, 4.0)) == 41
  {
  }
}
