/**
 How far from its own timestamp an audio frame can be placed, in any state, and what
 counts as a gap in the timestamps.
 */
module AudioAccuracy {
  import opened Wrappers
  import opened AudioTimebaseModel
  import opened AudioTimebaseTheorems
  import opened AudioContinuity

  /** Rescaling to the nearest is off by at most half a unit. */
  lemma NearIsNear(a: int, b: int, c: int)
    requires b >= 0 && c > 0
    ensures -c <= 2 * (RescaleNear(a, b, c) * c - a * b) <= c
  {
    var x := if a >= 0 then a * b + c / 2 else -a * b + c / 2;
    var q := x / c;
    assert x == q * c + x % c;
    if a < 0 {
      assert -a * b == -(a * b);
      assert (-q) * c == -(q * c);
    }
  }

  /** Position pos, in units of 1/den, against the timestamp of f, in units of 1/(den * tbDen). */
  function Off(f: Frame, pos: int, den: int): int
    requires f.pts.Some?
  {
    pos * f.tbDen - f.pts.value * (f.tbNum * den)
  }

  /** Within `half` of the timestamp; doubled, so that halves are whole. */
  predicate Near(f: Frame, pos: int, den: int, half: int)
    requires f.pts.Some?
  {
    -half <= 2 * Off(f, pos, den) <= half
  }

  /** One unit of the internal timebase and half a tick of the frame's own. */
  function Tolerance(f: Frame, den: int): int { 2 * f.tbDen + f.tbNum * den }

  lemma WindowIsNear(f: Frame, den: int, pos: int)
    requires ValidFrame(f) && f.pts.Some? && Lo(f, den) <= pos <= Hi(f, den)
    ensures Near(f, pos, den, Tolerance(f, den))
  {
    var lo, hi, c := Lo(f, den), Hi(f, den), f.tbDen;
    WindowIsTight(f, den, lo + 1);
    WindowIsTight(f, den, hi - 1);
    Interval(f.pts.value, f.tbNum * den, lo + 1, c);
    Interval(f.pts.value, f.tbNum * den, hi - 1, c);
    Successor(lo, c);
    Successor(hi - 1, c);
    TimesMonotone(lo, pos, c);
    TimesMonotone(pos, hi, c);
  }

  lemma WindowIsOrdered(f: Frame, den: int)
    requires ValidFrame(f) && f.pts.Some? && den > 0
    ensures Lo(f, den) <= Hi(f, den)
  {
    var lo, hi, c := Lo(f, den), Hi(f, den), f.tbDen;
    PositiveProduct(f.tbNum, den);
    WindowIsTight(f, den, lo);
    WindowIsTight(f, den, hi);
    Interval(f.pts.value, f.tbNum * den, lo, c);
    Interval(f.pts.value, f.tbNum * den, hi, c);
    CancelLe(lo, hi, c);
  }

  /** Converted by itself, without the state: to the nearest unit. */
  lemma SimplyPlaced(f: Frame, den: int)
    requires ValidFrame(f) && f.pts.Some? && den > 0
    ensures Near(f, RescaleNear(f.pts.value, f.tbNum * den, f.tbDen), den, f.tbDen)
  {
    PositiveProduct(f.tbNum, den);
    NearIsNear(f.pts.value, f.tbNum * den, f.tbDen);
  }

  /** The conversion, for any state it may be in. */
  lemma ConvertedNear(f: Frame, last: Option<int>, den: int)
    requires ValidFrame(f) && f.pts.Some? && den > 0
    ensures var pos := RescaleDelta(f.samples, f.pts.value, f.tbNum, f.tbDen, last, den).0;
            && Near(f, pos, den, Tolerance(f, den))
            && (last == None || !Coarse(f, den) ==> Near(f, pos, den, f.tbDen))
  {
    PositiveProduct(f.tbNum, den);
    SimplyPlaced(f, den);
    var simple := RescaleNear(f.pts.value, f.tbNum * den, f.tbDen);
    var pos := RescaleDelta(f.samples, f.pts.value, f.tbNum, f.tbDen, last, den).0;
    if pos != simple {
      var chosen := Clip(last.value, Lo(f, den), Hi(f, den));
      RescaleExact(chosen, den, den, chosen);
      WindowIsOrdered(f, den);
      WindowIsNear(f, den, pos);
    }
  }

  /** A gap, exactly: the timestamp is at least one of its own ticks after the predicted position. */
  lemma GapIff(d: Dec, f: Frame)
    requires ValidDec(d) && ValidFrame(f)
    ensures Gap(d, f) <==>
            f.pts.Some? && d.pts.Some? && (f.pts.value - 1) * (f.tbNum * d.den) >= Predicted(d) * f.tbDen
  {
    if f.pts.Some? && d.pts.Some? {
      var b, x := f.tbNum * d.den, Predicted(d) * f.tbDen;
      PositiveProduct(f.tbNum, d.den);
      FloorIff(-x, b, -(f.pts.value - 1));
      assert (-(f.pts.value - 1)) * b == -((f.pts.value - 1) * b);
    }
  }

  /**
   Accuracy, in any state, whatever came before: a frame with a timestamp is placed
   within half a tick of its own timebase plus one unit of that timestamp; within
   half a unit if its timebase is fine enough, if it is the first, or after a gap.
   */
  lemma PlacedNear(d: Dec, f: Frame)
    requires ValidDec(d) && ValidFrame(f) && f.pts.Some?
    ensures var d' := Process(d, f).0;
            && d'.pts.Some? && Near(f, d'.pts.value, d'.den, Tolerance(f, d'.den))
            && (!Coarse(f, d'.den) || d.delta == None || Gap(Update(d, f), f) ==>
                  Near(f, d'.pts.value, d'.den, f.tbDen))
  {
    var u := Update(d, f);
    ConvertedNear(f, if Gap(u, f) then None else u.delta, u.den);
  }

  /** The timestamp passed on is the position in the frame's own rate, to the nearest; the duration its samples. */
  lemma PassedOnNear(d: Dec, f: Frame)
    requires ValidDec(d) && ValidFrame(f)
    ensures var (d', out) := Process(d, f);
            && d'.pts.Some? && out.tbDen == f.rate && out.duration == f.samples
            && -d'.den <= 2 * (out.pts * d'.den - d'.pts.value * f.rate) <= d'.den
  {
    var r := Process(d, f);
    NearIsNear(r.0.pts.value, f.rate, r.0.den);
  }

  /** A change of the rate keeps the history to the nearest unit, with the fallback's timebase, too. */
  lemma HistoryNear(d: Dec, f: Frame)
    requires ValidDec(d) && ValidFrame(f)
    ensures var u := Update(d, f);
            && u.pts.Some? == d.pts.Some? && u.delta == d.delta && u.rate == f.rate
            && (d.pts.Some? ==> -d.den <= 2 * (u.pts.value * d.den - d.pts.value * u.den) <= d.den)
            && -d.den <= 2 * (u.dur * d.den - d.dur * u.den) <= d.den
  {
    if f.rate != d.rate {
      NewDenValid(d, f);
      if d.pts.Some? {
        NearIsNear(d.pts.value, NewDen(d, f), d.den);
      }
      NearIsNear(d.dur, NewDen(d, f), d.den);
    }
  }

  /** Over any run: the timestamps never drift away from the input's, however long the stream. */
  lemma TimestampsAreFollowed(fs: seq<Frame>, n: nat)
    requires n < |fs| && ValidFrames(fs) && fs[n].pts.Some?
    ensures var d := At(fs, n + 1);
            && d.pts.Some? && Near(fs[n], d.pts.value, d.den, Tolerance(fs[n], d.den))
            && (n == 0 ==> Near(fs[n], d.pts.value, d.den, fs[n].tbDen))
  {
    PlacedNear(At(fs, n), fs[n]);
  }
}
