/**
 What the conversion state of audio_ts_process is for: timestamps that were rounded
 to a coarse timebase are placed without gaps or overlaps.  This works while the
 state is in step with the predicted position; here is when it is, and what
 happens when it is not.
 */
module AudioContinuity {
  import opened Wrappers
  import opened Divisibility
  import opened AudioTimebaseModel
  import opened AudioTimebaseTheorems

  /** The timestamp of f is a correct rounding of the position pos, counted in 1/den. */
  predicate Rounds(f: Frame, pos: int, den: int) {
    && f.pts.Some?
    && (2 * f.pts.value - 1) * (f.tbNum * den) <= 2 * pos * f.tbDen <= (2 * f.pts.value + 1) * (f.tbNum * den)
  }

  /** The frame's timebase is coarser than 1/den. */
  predicate Coarse(f: Frame, den: int) { f.tbNum * den > f.tbDen }

  lemma CancelLe(p: int, q: int, c: int)
    requires c > 0 && p * c <= q * c
    ensures p <= q
  {
    Successor(q, c);
    if p > q {
      TimesMonotone(q + 1, p, c);
    }
  }

  lemma FloorAtMost(x: int, c: int, k: int)
    requires c > 0 && x <= k * c
    ensures x / c <= k
  {
    assert (x / c) * c <= x;
    CancelLe(x / c, k, c);
  }

  lemma CeilingAtLeast(x: int, c: int, k: int)
    requires c > 0 && k * c <= x
    ensures -((-x) / c) >= k
  {
    assert -x <= (-k) * c;
    FloorAtMost(-x, c, -k);
  }

  // ------------------------------------------------- when the state is in step

  /** The conversion state expects the next frame where the decoder predicts it. */
  predicate InStep(d: Dec) { d.delta == Some(Predicted(d)) }

  /** After every frame the state is the frame's position plus its number of samples, whatever the timebase. */
  lemma StateCountsSamples(d: Dec, f: Frame)
    requires ValidDec(d) && ValidFrame(f)
    ensures var r := Process(d, f).0; r.pts.Some? && r.delta == Some(r.pts.value + f.samples)
  {
    var d' := Update(d, f);
    var delta := if Gap(d', f) then None else d'.delta;
    if f.pts.Some? {
      RescaleDeltaCounts(f.samples, f.pts.value, f.tbNum, f.tbDen, delta, d'.den);
    } else {
      RescaleDeltaCounts(f.samples, Predicted(d'), 1, d'.den, delta, d'.den);
    }
  }

  lemma RescaleDeltaCounts(samples: nat, ts: int, tbNum: int, tbDen: int, last: Option<int>, den: int)
    requires tbNum > 0 && tbDen > 0 && den > 0
    ensures var r := RescaleDelta(samples, ts, tbNum, tbDen, last, den); r.1 == r.0 + samples
  {
    if last.Some? {
      var a := RescaleDown(2 * ts - 1, tbNum * den, tbDen) / 2;
      var b := (RescaleUp(2 * ts + 1, tbNum * den, tbDen) + 1) / 2;
      var k := Clip(last.value, a, b);
      RescaleExact(k, den, den, k);
    }
  }

  /** In any state: it is in step exactly when the number of samples is its own conversion to the timebase. */
  lemma InStepIff(d: Dec, f: Frame)
    requires ValidDec(d) && ValidFrame(f)
    ensures var r := Process(d, f).0;
            InStep(r) <==> f.samples * f.rate <= f.samples * r.den + f.rate / 2 < (f.samples + 1) * f.rate
  {
    StateCountsSamples(d, f);
    QuotientIff(f.samples * Process(d, f).0.den + f.rate / 2, f.rate, f.samples);
  }

  lemma QuotientIff(x: int, c: int, k: int)
    requires c > 0
    ensures x / c == k <==> k * c <= x < (k + 1) * c
  {
    Successor(k, c);
    if k * c <= x < (k + 1) * c {
      QuotientUnique(x / c, x % c, k, x - k * c, c);
    }
  }

  /** While the fallback has not fired, that means that the timebase is one over the rate; otherwise the state lags. */
  lemma InStepIffOwnRate(d: Dec, f: Frame)
    requires ValidDec(d) && ValidFrame(f) && RateInv(d) && !FallsBack(d, f) && f.samples > 0
    ensures var r := Process(d, f).0;
            && r.delta.Some? && r.delta.value <= Predicted(r)
            && (InStep(r) <==> r.den == f.rate)
  {
    var r := Process(d, f).0;
    StateCountsSamples(d, f);
    DenGrows(d, f);
    RescaleToMultiple(f.samples, r.den, f.rate);
    LongerUnits(f.samples, r.dur, r.den, f.rate);
  }

  lemma LongerUnits(samples: nat, dur: int, den: int, rate: int)
    requires samples > 0 && den > 0 && rate > 0 && Divides(rate, den) && dur * rate == samples * den
    ensures dur >= samples && (dur == samples <==> den == rate)
  {
    var q :| den == q * rate;
    assert q >= 1 by {
      MultipleIsFar(q, rate);
    }
    assert dur == samples * q by {
      assert dur * rate == (samples * q) * rate;
      CancelFactor(dur, samples * q, rate);
    }
    TimesMonotone(1, q, samples);
    if q > 1 {
      TimesMonotone(2, q, samples);
      TimesMonotone(2, q, rate);
    }
  }

  // ------------------------------------------- where one frame is placed

  /** The ends of the window of positions the timestamp can stand for: rounded outwards. */
  function Lo(f: Frame, den: int): int
    requires ValidFrame(f) && f.pts.Some?
  {
    RescaleDown(2 * f.pts.value - 1, f.tbNum * den, f.tbDen) / 2
  }

  function Hi(f: Frame, den: int): int
    requires ValidFrame(f) && f.pts.Some?
  {
    (RescaleUp(2 * f.pts.value + 1, f.tbNum * den, f.tbDen) + 1) / 2
  }

  /** Lo and Hi are the tightest integers around the interval of Rounds. */
  lemma WindowIsTight(f: Frame, den: int, pos: int)
    requires ValidFrame(f) && f.pts.Some?
    ensures (2 * pos) * f.tbDen <= (2 * f.pts.value - 1) * (f.tbNum * den) <==> pos <= Lo(f, den)
    ensures (2 * pos) * f.tbDen >= (2 * f.pts.value + 1) * (f.tbNum * den) <==> pos >= Hi(f, den)
  {
    HalfFloorIff((2 * f.pts.value - 1) * (f.tbNum * den), f.tbDen, pos);
    HalfCeilingIff((2 * f.pts.value + 1) * (f.tbNum * den), f.tbDen, pos);
  }

  lemma HalfFloorIff(x: int, c: int, pos: int)
    requires c > 0
    ensures (2 * pos) * c <= x <==> pos <= (x / c) / 2
  {
    FloorIff(x, c, 2 * pos);
  }

  lemma HalfCeilingIff(x: int, c: int, pos: int)
    requires c > 0
    ensures (2 * pos) * c >= x <==> pos >= (-((-x) / c) + 1) / 2
  {
    FloorIff(-x, c, -(2 * pos));
    assert (-(2 * pos)) * c == -((2 * pos) * c);
  }

  lemma FloorIff(x: int, c: int, k: int)
    requires c > 0
    ensures k * c <= x <==> k <= x / c
  {
    var q := x / c;
    assert q * c <= x < q * c + c;
    Successor(q, c);
    if k <= q {
      TimesMonotone(k, q, c);
    } else {
      TimesMonotone(q + 1, k, c);
    }
  }

  /** The nearest integer, when there is no tie. */
  lemma NearIs(a: int, b: int, c: int, k: int)
    requires b >= 0 && c > 0 && -c < 2 * (a * b - k * c) < c
    ensures RescaleNear(a, b, c) == k
  {
    if a >= 0 {
      QuotientIff(a * b + c / 2, c, k);
      Successor(k, c);
    } else {
      assert -a * b == -(a * b) && (-k) * c == -(k * c);
      QuotientIff(-a * b + c / 2, c, -k);
      Successor(-k, c);
    }
  }

  /** A timebase that is fine enough leaves no choice: the timestamp itself gives the position. */
  lemma FineIsExact(f: Frame, pos: int, den: int)
    requires ValidFrame(f) && den > 0 && !Coarse(f, den) && Rounds(f, pos, den)
    ensures RescaleNear(f.pts.value, f.tbNum * den, f.tbDen) == pos
  {
    var ts, b, c := f.pts.value, f.tbNum * den, f.tbDen;
    PositiveProduct(f.tbNum, den);
    Interval(ts, b, pos, c);
    if b == c {
      CancelLe(2 * ts - 1, 2 * pos, c);
      CancelLe(2 * pos, 2 * ts + 1, c);
      RescaleExact(ts, c, c, ts);
    } else {
      NearIs(ts, b, c, pos);
    }
  }

  lemma Interval(ts: int, b: int, pos: int, c: int)
    ensures (2 * ts - 1) * b == 2 * (ts * b) - b && (2 * ts + 1) * b == 2 * (ts * b) + b
    ensures 2 * pos * c == 2 * (pos * c)
  {
  }

  /** A timestamp that can be the rounding of the predicted position is not taken for a gap. */
  lemma RoundingIsNoGap(d: Dec, f: Frame)
    requires ValidDec(d) && ValidFrame(f) && d.pts.Some? && Rounds(f, Predicted(d), d.den)
    ensures !Gap(d, f)
  {
    var ts, pos, b, c := f.pts.value, Predicted(d), f.tbNum * d.den, f.tbDen;
    var up := RescaleUp(pos, c, b);
    assert up * b >= pos * c;
    NoHigher(ts, up, b, pos * c);
  }

  lemma NoHigher(ts: int, up: int, b: int, x: int)
    requires b > 0 && up * b >= x && (2 * ts - 1) * b <= 2 * x
    ensures ts <= up
  {
    assert (2 * ts - 1) * b <= (2 * up) * b;
    CancelLe(2 * ts - 1, 2 * up, b);
  }

  /** Frames that say nothing else about their position than that it is pos. */
  predicate Follows(f: Frame, pos: int, den: int) { f.pts == None || Rounds(f, pos, den) }

  /** Frames whose placing does not involve the conversion state. */
  predicate Direct(f: Frame, den: int) { f.pts == None || !Coarse(f, den) }

  /** Such frames start where the one before them ends, in any state. */
  lemma DirectContinues(d: Dec, f: Frame)
    requires ValidDec(d) && ValidFrame(f) && d.pts.Some? && Follows(f, Predicted(d), d.den) && Direct(f, d.den)
    ensures Place(d, f).0.pts == Some(Predicted(d))
  {
    if f.pts == None {
      RescaleDeltaSame(f.samples, Predicted(d), d.den, d.delta);
    } else {
      RoundingIsNoGap(d, f);
      FineIsExact(f, Predicted(d), d.den);
    }
  }

  /**
   A coarse timestamp that is a correct rounding of where the last frame ended, in
   any state: exactly when the frame is placed there.  The state is overruled when
   it is further from the window of the timestamp than the window is wide, and is
   otherwise moved to the nearer end of the window.
   */
  lemma ContinuesIff(d: Dec, f: Frame)
    requires ValidDec(d) && ValidFrame(f) && d.pts.Some? && Rounds(f, Predicted(d), d.den) && Coarse(f, d.den)
    ensures var pos, lo, hi := Predicted(d), Lo(f, d.den), Hi(f, d.den);
            && lo <= pos <= hi
            && (Place(d, f).0.pts == Some(pos) <==>
                  if f.samples > 0 && d.delta.Some? && 2 * lo - hi <= d.delta.value <= 2 * hi - lo then
                    || d.delta.value == pos
                    || (d.delta.value <= lo && pos == lo) || (d.delta.value >= hi && pos == hi)
                  else RescaleNear(f.pts.value, f.tbNum * d.den, f.tbDen) == pos)
  {
    var lo, hi := Lo(f, d.den), Hi(f, d.den);
    RoundingIsNoGap(d, f);
    WindowHolds(f, d.den, Predicted(d));
    if d.delta.Some? {
      var k := Clip(d.delta.value, lo, hi);
      RescaleExact(k, d.den, d.den, k);
    }
  }

  lemma WindowHolds(f: Frame, den: int, pos: int)
    requires ValidFrame(f) && den > 0 && Rounds(f, pos, den)
    ensures Lo(f, den) <= pos <= Hi(f, den)
  {
    var b, c := f.tbNum * den, f.tbDen;
    FloorAtMost((2 * f.pts.value - 1) * b, c, 2 * pos);
    CeilingAtLeast((2 * f.pts.value + 1) * b, c, 2 * pos);
  }

  /** In step, every frame that says nothing else starts where the one before it ends. */
  lemma InStepContinues(d: Dec, f: Frame)
    requires ValidDec(d) && ValidFrame(f) && d.pts.Some? && InStep(d) && Follows(f, Predicted(d), d.den)
    requires Direct(f, d.den) || f.samples > 0
    ensures Place(d, f).0.pts == Some(Predicted(d))
  {
    if Direct(f, d.den) {
      DirectContinues(d, f);
    } else {
      ContinuesIff(d, f);
    }
  }

  /**
   Lagging, as after a change of rate, a coarse timestamp continues only by accident:
   the state is so far behind that the timestamp alone decides and happens to be
   exact, or the position happens to be the earliest one the timestamp allows.
   */
  lemma LaggingContinuesIff(d: Dec, f: Frame)
    requires ValidDec(d) && ValidFrame(f) && d.pts.Some? && Rounds(f, Predicted(d), d.den) && Coarse(f, d.den)
    requires f.samples > 0 && d.delta.Some? && d.delta.value < Predicted(d)
    ensures Place(d, f).0.pts == Some(Predicted(d)) <==>
            if d.delta.value >= 2 * Lo(f, d.den) - Hi(f, d.den) then Predicted(d) == Lo(f, d.den)
            else RescaleNear(f.pts.value, f.tbNum * d.den, f.tbDen) == Predicted(d)
  {
    ContinuesIff(d, f);
  }

  /** Whether a frame that says no more about its position than pos is placed there, given the conversion state. */
  predicate Continues(f: Frame, pos: int, den: int, state: Option<int>)
    requires ValidFrame(f) && den > 0
  {
    || Direct(f, den)
    || var lo, hi := Lo(f, den), Hi(f, den);
       if f.samples > 0 && state.Some? && 2 * lo - hi <= state.value <= 2 * hi - lo then
         || state.value == pos || (state.value <= lo && pos == lo) || (state.value >= hi && pos == hi)
       else RescaleNear(f.pts.value, f.tbNum * den, f.tbDen) == pos
  }

  /** In any state, for any such frame: exactly when it starts where the one before it ends. */
  lemma PlacedIff(d: Dec, f: Frame)
    requires ValidDec(d) && ValidFrame(f) && d.pts.Some? && Follows(f, Predicted(d), d.den)
    ensures Place(d, f).0.pts == Some(Predicted(d)) <==> Continues(f, Predicted(d), d.den, d.delta)
  {
    if Direct(f, d.den) {
      DirectContinues(d, f);
    } else {
      ContinuesIff(d, f);
    }
  }

  // ------------------------------------------------------- one rate, in step

  /** The history after a frame at position pos, in the frame's own rate. */
  function Following(f: Frame, pos: int): Dec {
    Dec(Some(pos), f.samples, f.rate, Some(pos + f.samples), f.rate)
  }

  lemma ContinuesOne(e: Frame, f: Frame, pos: int)
    requires ValidFrame(e) && ValidFrame(f) && e.rate == f.rate
    requires Follows(f, pos + e.samples, f.rate) && (Direct(f, f.rate) || f.samples > 0)
    ensures Process(Following(e, pos), f) ==
            (Following(f, pos + e.samples), OutFrame(pos + e.samples, f.samples, f.rate))
  {
    var d, next := Following(e, pos), pos + e.samples;
    InStepContinues(d, f);
    StateCountsSamples(d, f);
    RescaleExact(f.samples, f.rate, f.rate, f.samples);
    RescaleExact(next, f.rate, f.rate, next);
  }

  lemma GcdOfOne(n: nat)
    ensures Gcd(1, n) == 1
  {
    GcdDivides(1, n);
    var g := Gcd(1, n);
    var k :| 1 == k * g;
    MultipleIsFar(k, g);
  }
}
