/** While the fallback does not fire, audio timestamps are exact over any run; and when it fires they need not be. */
module AudioTimebaseTheorems {
  import opened Wrappers
  import opened Divisibility
  import opened AudioTimebaseModel

  // --------------------------------------------------------- exact rescaling

  lemma RescaleExact(a: int, b: int, c: int, k: int)
    requires b >= 0 && c > 0 && a * b == k * c
    ensures RescaleNear(a, b, c) == k
  {
    if a >= 0 {
      var x := a * b + c / 2;
      QuotientUnique(x / c, x % c, k, c / 2, c);
    } else {
      assert -a * b == -(a * b);
      var x := -a * b + c / 2;
      assert -k * c == -(k * c);
      QuotientUnique(x / c, x % c, -k, c / 2, c);
    }
  }

  /** To a timebase whose denominator is a multiple of the old one. */
  lemma RescaleToMultiple(a: int, b: int, c: int)
    requires b >= 0 && c > 0 && Divides(c, b)
    ensures RescaleNear(a, b, c) * c == a * b
  {
    var q :| b == q * c;
    assert a * b == (a * q) * c;
    RescaleExact(a, b, c, a * q);
  }

  /** Rescaling between equal timebases changes nothing. */
  lemma RescaleDeltaSame(samples: nat, ts: int, den: int, last: Option<int>)
    requires den > 0
    ensures RescaleDelta(samples, ts, 1, den, last, den).0 == ts
  {
    assert 1 * den == den;
    RescaleExact(ts, den, den, ts);
  }

  // ------------------------------------------------------------ the timebase

  ghost predicate RateInv(d: Dec) { d.rate == 0 || (d.rate > 0 && Divides(d.rate, d.den)) }

  /** One frame: the new denominator is a multiple of the old one and of the frame's rate. */
  lemma DenGrows(d: Dec, f: Frame)
    requires ValidDec(d) && ValidFrame(f) && RateInv(d) && !FallsBack(d, f)
    ensures Divides(d.den, NewDen(d, f)) && Divides(f.rate, NewDen(d, f))
    ensures RateInv(Update(d, f)) && RateInv(Process(d, f).0)
  {
    if f.rate == d.rate {
      DividesSelf(d.den);
    } else {
      var r := Lcm(d.den, f.rate);
      LcmIsMultiple(d.den, f.rate);
      DividesIffMod(r, NewDen(d, f));
      if NewDen(d, f) == r {
        DividesSelf(r);
      }
      DividesTransitive(d.den, r, NewDen(d, f));
      DividesTransitive(f.rate, r, NewDen(d, f));
    }
  }

  lemma {:induction false} RateInvKept(fs: seq<Frame>, n: nat)
    requires n <= |fs| && ValidFrames(fs) && NoFallback(fs)
    ensures RateInv(At(fs, n))
    ensures n > 0 ==> At(fs, n).rate == fs[n-1].rate && At(fs, n).pts.Some?
  {
    if n > 0 {
      RateInvKept(fs, n - 1);
      assert ExactAt(fs, n - 1);
      DenGrows(At(fs, n - 1), fs[n-1]);
    }
  }

  /**
   Over any run without the fallback, the timebase represents everything seen so
   far: its denominator is a multiple of every earlier denominator and of every
   earlier sample rate, and fits an int.
   */
  lemma {:induction false} TimebaseRepresentsAll(fs: seq<Frame>, i: nat, n: nat)
    requires i <= n <= |fs| && ValidFrames(fs) && NoFallback(fs)
    ensures Divides(At(fs, i).den, At(fs, n).den) && At(fs, n).den <= INT_MAX
    ensures i < n ==> Divides(fs[i].rate, At(fs, n).den)
  {
    if i == n {
      DividesSelf(At(fs, n).den);
    } else {
      var d := At(fs, n - 1);
      RateInvKept(fs, n - 1);
      assert ExactAt(fs, n - 1);
      DenGrows(d, fs[n-1]);
      TimebaseRepresentsAll(fs, i, n - 1);
      DividesTransitive(At(fs, i).den, d.den, At(fs, n).den);
      if i < n - 1 {
        DividesTransitive(fs[i].rate, d.den, At(fs, n).den);
      }
    }
  }

  /** The history is converted to the new timebase without loss. */
  lemma HistoryExact(d: Dec, f: Frame)
    requires ValidDec(d) && ValidFrame(f) && RateInv(d) && !FallsBack(d, f)
    ensures var d' := Update(d, f);
            && (d.pts.Some? <==> d'.pts.Some?)
            && (d.pts.Some? ==> d'.pts.value * d.den == d.pts.value * d'.den)
            && d'.dur * d.den == d.dur * d'.den
  {
    DenGrows(d, f);
    if f.rate != d.rate {
      RescaleToMultiple(d.dur, NewDen(d, f), d.den);
      if d.pts.Some? {
        RescaleToMultiple(d.pts.value, NewDen(d, f), d.den);
      }
    }
  }

  // --------------------------------------------------------------- positions

  /** A count of 1/den in seconds. */
  function Seconds(n: int, den: int): real
    requires den > 0
  {
    n as real / den as real
  }

  /** Where the last frame starts, in seconds. */
  ghost function Position(fs: seq<Frame>, n: nat): real
    requires 0 < n <= |fs| && ValidFrames(fs) && NoFallback(fs)
  {
    RateInvKept(fs, n);
    Seconds(At(fs, n).pts.value, At(fs, n).den)
  }

  /** How long frames i..j play. */
  function Playing(fs: seq<Frame>, i: nat, j: nat): real
    requires i <= j <= |fs| && forall k :: 0 <= k < |fs| ==> fs[k].rate > 0
  {
    if i == j then 0.0 else Playing(fs, i, j - 1) + Seconds(fs[j-1].samples, fs[j-1].rate)
  }

  lemma CancelReal(x: real, y: real, b: real)
    requires b > 0.0 && x * b == y * b
    ensures x == y
  {
    assert (x - y) * b == 0.0;
  }

  lemma SameSeconds(a: int, b: int, c: int, d: int)
    requires b > 0 && d > 0 && a * d == c * b
    ensures Seconds(a, b) == Seconds(c, d)
  {
    var x, y := Seconds(a, b), Seconds(c, d);
    var rb, rd := b as real, d as real;
    assert x * rb == a as real && y * rd == c as real;
    assert (a as real) * rd == (c as real) * rb;
    assert (x * rb) * rd == x * (rb * rd);
    assert (y * rd) * rb == y * (rb * rd);
    assert rb * rd > 0.0;
    CancelReal(x, y, rb * rd);
  }

  lemma SumSeconds(a: int, c: int, den: int)
    requires den > 0
    ensures Seconds(a + c, den) == Seconds(a, den) + Seconds(c, den)
  {
    assert (a + c) as real == a as real + c as real;
  }

  /** After each frame the estimated duration is exactly the frame's. */
  lemma DurationExact(fs: seq<Frame>, n: nat)
    requires 0 < n <= |fs| && ValidFrames(fs) && NoFallback(fs)
    ensures At(fs, n).dur * fs[n-1].rate == fs[n-1].samples * At(fs, n).den
    ensures Seconds(At(fs, n).dur, At(fs, n).den) == Seconds(fs[n-1].samples, fs[n-1].rate)
  {
    var d, f := At(fs, n - 1), fs[n-1];
    RateInvKept(fs, n - 1);
    assert ExactAt(fs, n - 1);
    DenGrows(d, f);
    RescaleToMultiple(f.samples, NewDen(d, f), f.rate);
    SameSeconds(At(fs, n).dur, At(fs, n).den, f.samples, f.rate);
  }

  /** An untimestamped frame starts exactly where the one before it ends. */
  lemma UntimedFollows(fs: seq<Frame>, n: nat)
    requires 0 < n < |fs| && ValidFrames(fs) && NoFallback(fs) && fs[n].pts == None
    ensures Position(fs, n + 1) == Position(fs, n) + Seconds(fs[n-1].samples, fs[n-1].rate)
  {
    var d, f := At(fs, n), fs[n];
    RateInvKept(fs, n);
    assert ExactAt(fs, n);
    HistoryExact(d, f);
    var d' := Update(d, f);
    SameSeconds(d'.pts.value, d'.den, d.pts.value, d.den);
    SameSeconds(d'.dur, d'.den, d.dur, d.den);
    SumSeconds(d'.pts.value, d'.dur, d'.den);
    RescaleDeltaSame(f.samples, Predicted(d'), d'.den, d'.delta);
    assert At(fs, n + 1).pts == Some(Predicted(d'));
    DurationExact(fs, n);
  }

  /**
   Exact placement over any run without the fallback: after frame i - 1, timestamped
   or not, the untimestamped frames up to j - 1 start exactly after the playing
   time of those between.
   */
  lemma {:induction false} UntimedFramesPlacedExactly(fs: seq<Frame>, i: nat, j: nat)
    requires 0 < i <= j <= |fs| && ValidFrames(fs) && NoFallback(fs)
    requires forall k :: i <= k < j ==> fs[k].pts == None
    ensures Position(fs, j) == Position(fs, i) + Playing(fs, i - 1, j - 1)
  {
    if i < j {
      UntimedFramesPlacedExactly(fs, i, j - 1);
      UntimedFollows(fs, j - 1);
    }
  }

  /** With no timestamps at all, frame n - 1 starts at the sum of the earlier frames' samples / rate. */
  lemma UntimedStreamStartsAtZero(fs: seq<Frame>, n: nat)
    requires 0 < n <= |fs| && ValidFrames(fs) && NoFallback(fs)
    requires forall k :: 0 <= k < n ==> fs[k].pts == None
    ensures Position(fs, n) == Playing(fs, 0, n - 1)
  {
    var d' := Update(Start(), fs[0]);
    RescaleDeltaSame(fs[0].samples, 0, d'.den, d'.delta);
    assert At(fs, 0) == Start();
    assert At(fs, 1).pts == Some(0);
    UntimedFramesPlacedExactly(fs, 1, n);
  }

  /** The timestamp passed on is the nearest one in the frame's own rate, hence exact when there is an exact one. */
  lemma OutputPts(fs: seq<Frame>, n: nat, k: int)
    requires 0 < n <= |fs| && ValidFrames(fs) && NoFallback(fs)
    requires Position(fs, n) == Seconds(k, fs[n-1].rate)
    ensures Process(At(fs, n - 1), fs[n-1]).1 == OutFrame(k, fs[n-1].samples, fs[n-1].rate)
  {
    RateInvKept(fs, n);
    var d, rate := At(fs, n), fs[n-1].rate;
    IntegerFromSeconds(d.pts.value, d.den, k, rate);
    RescaleExact(d.pts.value, rate, d.den, k);
  }

  lemma IntegerFromSeconds(a: int, b: int, c: int, d: int)
    requires b > 0 && d > 0 && Seconds(a, b) == Seconds(c, d)
    ensures a * d == c * b
  {
    var x, rb, rd := Seconds(a, b), b as real, d as real;
    assert x * rb == a as real && x * rd == c as real;
    assert (x * rb) * rd == (x * rd) * rb;
    assert (a * d) as real == (c * b) as real;
  }

  // ------------------------------------------------------- with the fallback

  /** No count is changed by rescaling it by b / c. */
  ghost predicate Lossless(b: int, c: int) {
    b >= 0 && c > 0 && forall n: nat :: RescaleNear(n, b, c) * c == n * b
  }

  lemma LosslessIff(b: int, c: int)
    requires b >= 0 && c > 0
    ensures Lossless(b, c) <==> b % c == 0
  {
    if Lossless(b, c) {
      var k := RescaleNear(1, b, c);
      assert k * c == 1 * b;
      ExactQuotient(k, c);
    }
    if b % c == 0 {
      DividesIffMod(c, b);
      forall n: nat
        ensures RescaleNear(n, b, c) * c == n * b
      {
        RescaleToMultiple(n, b, c);
      }
    }
  }

  /**
   When a frame is taken without loss, with or without the fallback: durations at its
   rate, whatever they are, exactly when the new denominator is a multiple of the
   rate; the history, whatever it is, exactly when it is a multiple of the old one.
   */
  lemma ExactIff(d: Dec, f: Frame)
    requires ValidDec(d) && ValidFrame(f)
    ensures Lossless(NewDen(d, f), f.rate) <==> NewDen(d, f) % f.rate == 0
    ensures Lossless(NewDen(d, f), d.den) <==> NewDen(d, f) % d.den == 0
  {
    NewDenValid(d, f);
    LosslessIff(NewDen(d, f), f.rate);
    LosslessIff(NewDen(d, f), d.den);
  }

  /** Without the fallback both hold in every state a run can reach. */
  lemma NoFallbackIsExact(fs: seq<Frame>, n: nat)
    requires n < |fs| && ValidFrames(fs) && NoFallback(fs)
    ensures NewDen(At(fs, n), fs[n]) % fs[n].rate == 0 && NewDen(At(fs, n), fs[n]) % At(fs, n).den == 0
  {
    RateInvKept(fs, n);
    assert ExactAt(fs, n);
    DenGrows(At(fs, n), fs[n]);
    DividesIffMod(fs[n].rate, NewDen(At(fs, n), fs[n]));
    DividesIffMod(At(fs, n).den, NewDen(At(fs, n), fs[n]));
  }

  lemma DivisorAtMost(d: int, n: int)
    requires d > 0 && n > 0 && Divides(d, n)
    ensures d <= n
  {
    var k :| n == k * d;
    MultipleIsFar(k, d);
  }

  /** With the fallback's own timebase, not both can hold: something is always lost. */
  lemma FallbackLosesSomething(d: Dec, f: Frame)
    requires ValidDec(d) && ValidFrame(f) && FallsBack(d, f) && NewDen(d, f) == COMMON_RATES
    ensures COMMON_RATES % f.rate != 0 || COMMON_RATES % d.den != 0
  {
    FallsBackIff(d, f);
    if COMMON_RATES % f.rate == 0 && COMMON_RATES % d.den == 0 {
      DividesIffMod(f.rate, COMMON_RATES);
      DividesIffMod(d.den, COMMON_RATES);
      LcmIsLeast(d.den, f.rate, COMMON_RATES);
      LcmIsMultiple(d.den, f.rate);
      DivisorAtMost(f.rate, COMMON_RATES);
      DivisorAtMost(Lcm(d.den, f.rate), COMMON_RATES);
      assert false;
    }
  }

  // Two streams that fall back at their second frame.

  const FIRST := Frame(None, 1, 1, 192001, 1024)
  const ODD := Frame(None, 1, 1, 192002, 1024)
  const COMMON := Frame(None, 1, 1, 192000, 1024)

  /** The history after FIRST. */
  const LARGE := Dec(Some(0), 1024, 192001, Some(1024), 192001)

  lemma FirstIsLarge(f: Frame)
    requires ValidFrame(f)
    ensures ValidFrames([FIRST, f]) && At([FIRST, f], 1) == LARGE
  {
    assert At([FIRST, f], 0) == Start();
    assert Gcd(1, 192001) == 1 by {
      GcdDivides(1, 192001);
      var k :| 1 == k * Gcd(1, 192001);
      MultipleIsFar(k, Gcd(1, 192001));
    }
    assert NewDen(Start(), FIRST) == 192001;
    RescaleExact(0, 192001, 1, 0);
    RescaleDeltaSame(1024, 0, 192001, None);
    RescaleExact(1024, 192001, 192001, 1024);
  }

  lemma OddFallsBack()
    ensures FallsBack(LARGE, ODD) && NewDen(LARGE, ODD) == COMMON_RATES
  {
    assert Gcd(192001, 192002) == Gcd(192002, 192001) == Gcd(192001, 1) == Gcd(1, 0);
  }

  lemma CommonFallsBack()
    ensures FallsBack(LARGE, COMMON) && NewDen(LARGE, COMMON) == COMMON_RATES
  {
    assert Gcd(192001, 192000) == Gcd(192000, 1) == Gcd(1, 0);
  }

  /** A second rate that is not a common one: neither the history nor the durations are exact. */
  lemma FallbackLosesExactness()
    ensures ValidFrames([FIRST, ODD]) && At([FIRST, ODD], 1) == LARGE && FallsBack(LARGE, ODD)
    ensures !Lossless(NewDen(LARGE, ODD), ODD.rate) && !Lossless(NewDen(LARGE, ODD), LARGE.den)
    ensures At([FIRST, ODD], 2).dur * ODD.rate != ODD.samples * At([FIRST, ODD], 2).den
  {
    FirstIsLarge(ODD);
    OddFallsBack();
    ExactIff(LARGE, ODD);
    assert At([FIRST, ODD], 2) == Process(LARGE, ODD).0;
  }

  /** But the durations can stay exact: they do at a common rate. */
  lemma FallbackCanKeepDurations()
    ensures ValidFrames([FIRST, COMMON]) && At([FIRST, COMMON], 1) == LARGE && FallsBack(LARGE, COMMON)
    ensures Lossless(NewDen(LARGE, COMMON), COMMON.rate) && !Lossless(NewDen(LARGE, COMMON), LARGE.den)
  {
    FirstIsLarge(COMMON);
    CommonFallsBack();
    ExactIff(LARGE, COMMON);
  }
}
