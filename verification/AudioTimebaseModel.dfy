/**
 Timestamps of decoded audio (audio_samplerate_update, audio_ts_process): the
 internal timebase that must represent every sample rate seen, as functions.
 Rescaling is libavutil's (mathematics.c), on unbounded integers.
 */
module AudioTimebaseModel {
  import opened Wrappers
  import opened Divisibility

  const INT_MAX: int := 0x7fff_ffff

  /** LCM of 192000 and 44100: the timebase used when no exact one fits. */
  const COMMON_RATES: int := 28224000

  /** A decoded frame; its timebase is tbNum/tbDen. */
  datatype Frame = Frame(pts: Option<int>, tbNum: int, tbDen: int, rate: int, samples: nat)

  /** A frame as it is passed on, in timebase 1/rate. */
  datatype OutFrame = OutFrame(pts: int, duration: int, tbDen: int)

  /** The decoder's history; last_frame_tb is 1/den throughout. */
  datatype Dec = Dec(
    pts: Option<int>,      // last_frame_pts
    dur: int,              // last_frame_duration_est
    den: int,
    delta: Option<int>,    // last_filter_in_rescale_delta
    rate: int)             // last_frame_sample_rate

  predicate ValidFrame(f: Frame) {
    0 < f.tbNum <= INT_MAX && 0 < f.tbDen <= INT_MAX && 0 < f.rate <= INT_MAX
  }

  predicate ValidDec(d: Dec) { 0 < d.den <= INT_MAX }

  function Start(): Dec { Dec(None, 0, 1, None, 0) }

  // --------------------------------------------------------------- rescaling

  /** a * b / c, to the nearest, halves away from zero. */
  function RescaleNear(a: int, b: int, c: int): int
    requires b >= 0 && c > 0
  {
    if a >= 0 then (a * b + c / 2) / c else -((-a * b + c / 2) / c)
  }

  function RescaleDown(a: int, b: int, c: int): int
    requires c > 0
  {
    (a * b) / c
  }

  function RescaleUp(a: int, b: int, c: int): int
    requires c > 0
  {
    -((-(a * b)) / c)
  }

  function Clip(x: int, lo: int, hi: int): int { if x < lo then lo else if x > hi then hi else x }

  /** av_rescale_delta with fs_tb and out_tb both 1/den: (rescaled timestamp, new *last). */
  function RescaleDelta(samples: nat, ts: int, tbNum: int, tbDen: int, last: Option<int>, den: int): (int, int)
    requires tbNum > 0 && tbDen > 0 && den > 0
  {
    var simple := (RescaleNear(ts, tbNum * den, tbDen), RescaleNear(ts, tbNum * den, tbDen) + samples);
    if last == None || samples == 0 || tbNum * den <= tbDen then simple
    else
      var a := RescaleDown(2 * ts - 1, tbNum * den, tbDen) / 2;
      var b := (RescaleUp(2 * ts + 1, tbNum * den, tbDen) + 1) / 2;
      if last.value < 2 * a - b || last.value > 2 * b - a then simple
      else
        var this_ := Clip(last.value, a, b);
        (RescaleNear(this_, den, den), this_ + samples)
  }

  // ------------------------------------------------------------ the timebase

  /** "Audio timestamps cannot be represented exactly after sample rate change" */
  predicate FallsBack(d: Dec, f: Frame)
    requires ValidDec(d) && ValidFrame(f)
  {
    f.rate != d.rate && d.den / Gcd(d.den, f.rate) >= INT_MAX / f.rate
  }

  /** The timebase chosen from the rates alone. */
  function RateDen(d: Dec, f: Frame): int
    requires ValidDec(d) && ValidFrame(f)
  {
    if FallsBack(d, f) then COMMON_RATES else Lcm(d.den, f.rate)
  }

  function NewDen(d: Dec, f: Frame): int
    requires ValidDec(d) && ValidFrame(f)
  {
    if f.rate == d.rate then d.den
    else
      var r := RateDen(d, f);
      if r > 0 && f.tbNum == 1 && f.tbDen > r && f.tbDen % r == 0 then f.tbDen else r
  }

  lemma PositiveProduct(a: int, b: int)
    requires a > 0 && b > 0
    ensures a * b > 0
  {
  }

  lemma TimesMonotone(x: int, y: int, r: nat)
    requires x <= y
    ensures x * r <= y * r
  {
  }

  lemma QuotientBound(p: int, r: nat, m: nat)
    requires r > 0
    ensures p >= m / r <==> (p + 1) * r > m
  {
    var q := m / r;
    assert q * r + m % r == m;
    Successor(q, r);
    if p >= q {
      TimesMonotone(q + 1, p + 1, r);
    } else {
      TimesMonotone(p + 1, q, r);
    }
  }

  lemma Successor(p: int, r: int)
    ensures (p + 1) * r == p * r + r
  {
  }

  /** The exact condition for the fallback: the least common multiple, plus one more rate, does not fit an int. */
  lemma FallsBackIff(d: Dec, f: Frame)
    requires ValidDec(d) && ValidFrame(f)
    ensures FallsBack(d, f) <==> f.rate != d.rate && Lcm(d.den, f.rate) + f.rate > INT_MAX
  {
    var p := d.den / Gcd(d.den, f.rate);
    QuotientBound(p, f.rate, INT_MAX);
    Successor(p, f.rate);
  }

  lemma RateDenRange(d: Dec, f: Frame)
    requires ValidDec(d) && ValidFrame(f) && f.rate != d.rate
    ensures 0 < RateDen(d, f) <= INT_MAX
  {
    FallsBackIff(d, f);
    LcmIsMultiple(d.den, f.rate);
  }

  lemma NewDenValid(d: Dec, f: Frame)
    requires ValidDec(d) && ValidFrame(f)
    ensures 0 < NewDen(d, f) <= INT_MAX
  {
    if f.rate != d.rate {
      RateDenRange(d, f);
    }
  }

  /** audio_samplerate_update */
  function Update(d: Dec, f: Frame): (d': Dec)
    requires ValidDec(d) && ValidFrame(f)
    ensures ValidDec(d')
  {
    NewDenValid(d, f);
    var den := NewDen(d, f);
    if f.rate == d.rate then d
    else Dec(if d.pts.Some? then Some(RescaleNear(d.pts.value, den, d.den)) else None,
             RescaleNear(d.dur, den, d.den), den, d.delta, f.rate)
  }

  function Predicted(d: Dec): int { if d.pts.Some? then d.pts.value + d.dur else 0 }

  /** There is a gap before this timestamp: the conversion state is reset. */
  predicate Gap(d: Dec, f: Frame)
    requires ValidDec(d) && ValidFrame(f)
  {
    f.pts.Some? && d.pts.Some? && f.pts.value > RescaleUp(Predicted(d), f.tbDen, f.tbNum * d.den)
  }

  /** audio_ts_process, after the timebase update. */
  function Place(d: Dec, f: Frame): (r: (Dec, OutFrame))
    requires ValidDec(d) && ValidFrame(f)
    ensures ValidDec(r.0)
  {
    var delta := if Gap(d, f) then None else d.delta;
    var (ts, last) :=
      if f.pts.Some? then RescaleDelta(f.samples, f.pts.value, f.tbNum, f.tbDen, delta, d.den)
      else RescaleDelta(f.samples, Predicted(d), 1, d.den, delta, d.den);
    (Dec(Some(ts), RescaleNear(f.samples, d.den, f.rate), d.den, Some(last), d.rate),
     OutFrame(RescaleNear(ts, f.rate, d.den), f.samples, f.rate))
  }

  function Process(d: Dec, f: Frame): (r: (Dec, OutFrame))
    requires ValidDec(d) && ValidFrame(f)
    ensures ValidDec(r.0)
  {
    Place(Update(d, f), f)
  }

  ghost predicate ValidFrames(fs: seq<Frame>) { forall i :: 0 <= i < |fs| ==> ValidFrame(fs[i]) }

  /** The history after the first n frames. */
  ghost function At(fs: seq<Frame>, n: nat): (d: Dec)
    requires n <= |fs| && ValidFrames(fs)
    ensures ValidDec(d)
  {
    if n == 0 then Start() else Process(At(fs, n - 1), fs[n-1]).0
  }

  ghost predicate ExactAt(fs: seq<Frame>, i: nat)
    requires i < |fs| && ValidFrames(fs)
  {
    !FallsBack(At(fs, i), fs[i])
  }

  ghost predicate NoFallback(fs: seq<Frame>)
    requires ValidFrames(fs)
  {
    forall i :: 0 <= i < |fs| ==> ExactAt(fs, i)
  }
}
