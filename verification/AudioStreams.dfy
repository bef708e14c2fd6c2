/**
 Whole streams: exactly when decoded audio of one sample rate comes out without gaps
 or overlaps, and what a change of rate does.
 */
module AudioStreams {
  import opened Wrappers
  import opened Divisibility
  import opened AudioTimebaseModel
  import opened AudioTimebaseTheorems
  import opened AudioContinuity

  /** The timebase of a stream of one rate: the first frame chooses it. */
  function StreamDen(f: Frame): (den: int)
    requires ValidFrame(f)
    ensures 0 < den <= INT_MAX
  {
    NewDenValid(Start(), f);
    NewDen(Start(), f)
  }

  /** Where the first frame of a stream is placed. */
  function FirstPosition(f: Frame): int
    requires ValidFrame(f)
  {
    if f.pts.Some? then RescaleNear(f.pts.value, f.tbNum * StreamDen(f), f.tbDen) else 0
  }

  /** The contiguous position of frame i: the first one's, and the durations since. */
  ghost function Pos(fs: seq<Frame>, i: nat): int
    requires i < |fs| && ValidFrames(fs)
  {
    if i == 0 then FirstPosition(fs[0])
    else Pos(fs, i - 1) + RescaleNear(fs[i-1].samples, StreamDen(fs[0]), fs[i-1].rate)
  }

  ghost predicate OneRate(fs: seq<Frame>) {
    forall i :: 0 <= i < |fs| ==> fs[i].rate == fs[0].rate
  }

  /** What the timestamps of frames 1 to n - 1 say, where there are any, is the contiguous position. */
  ghost predicate Correct(fs: seq<Frame>, n: nat)
    requires n <= |fs| && ValidFrames(fs)
  {
    forall i :: 0 < i < n ==> Follows(fs[i], Pos(fs, i), StreamDen(fs[0]))
  }

  ghost predicate Placed(fs: seq<Frame>, i: nat)
    requires i < |fs| && ValidFrames(fs)
  {
    At(fs, i + 1).pts == Some(Pos(fs, i))
  }

  /** The condition on frame i, given that the one before it was placed right. */
  ghost predicate ContinuesAt(fs: seq<Frame>, i: nat)
    requires 0 < i < |fs| && ValidFrames(fs)
  {
    Continues(fs[i], Pos(fs, i), StreamDen(fs[0]), Some(Pos(fs, i - 1) + fs[i-1].samples))
  }

  /** The history, but for the position, is determined by the last frame. */
  ghost predicate StateIs(d: Dec, f: Frame, den: int)
    requires ValidFrame(f) && den > 0
  {
    && d.rate == f.rate && d.den == den && d.dur == RescaleNear(f.samples, den, f.rate)
    && d.pts.Some? && d.delta == Some(d.pts.value + f.samples)
  }

  lemma StateAfter(d: Dec, f: Frame)
    requires ValidDec(d) && ValidFrame(f)
    ensures 0 < NewDen(d, f) <= INT_MAX && StateIs(Process(d, f).0, f, NewDen(d, f))
  {
    NewDenValid(d, f);
    StateCountsSamples(d, f);
  }

  lemma {:induction false} OneRateState(fs: seq<Frame>, i: nat)
    requires i < |fs| && ValidFrames(fs) && OneRate(fs)
    ensures StateIs(At(fs, i + 1), fs[i], StreamDen(fs[0]))
  {
    StateAfter(At(fs, i), fs[i]);
    if i > 0 {
      OneRateState(fs, i - 1);
      assert fs[i-1].rate == fs[i].rate;
    }
  }

  lemma FirstIsPlaced(fs: seq<Frame>)
    requires fs != [] && ValidFrames(fs)
    ensures Placed(fs, 0)
  {
    var f, den := fs[0], StreamDen(fs[0]);
    assert At(fs, 0) == Start();
    RescaleExact(0, den, 1, 0);
    RescaleExact(0, den, den, 0);
  }

  lemma NextIsPlacedIff(fs: seq<Frame>, i: nat)
    requires 0 < i < |fs| && ValidFrames(fs) && OneRate(fs) && Placed(fs, i - 1)
    requires Follows(fs[i], Pos(fs, i), StreamDen(fs[0]))
    ensures Placed(fs, i) <==> ContinuesAt(fs, i)
  {
    OneRateState(fs, i - 1);
    assert fs[i-1].rate == fs[i].rate;
    PlacedIff(At(fs, i), fs[i]);
  }

  /** The first n frames all come out at the contiguous position. */
  ghost predicate Contiguous(fs: seq<Frame>, n: nat)
    requires n <= |fs| && ValidFrames(fs)
  {
    n == 0 || (Contiguous(fs, n - 1) && Placed(fs, n - 1))
  }

  /** Every one of them after the first meets its condition. */
  ghost predicate AllContinue(fs: seq<Frame>, n: nat)
    requires n <= |fs| && ValidFrames(fs)
  {
    n <= 1 || (AllContinue(fs, n - 1) && ContinuesAt(fs, n - 1))
  }

  lemma {:induction false} ContiguousMeans(fs: seq<Frame>, n: nat)
    requires n <= |fs| && ValidFrames(fs)
    ensures Contiguous(fs, n) <==> forall i :: 0 <= i < n ==> Placed(fs, i)
  {
    if n > 0 {
      ContiguousMeans(fs, n - 1);
    }
  }

  lemma {:induction false} AllContinueMeans(fs: seq<Frame>, n: nat)
    requires n <= |fs| && ValidFrames(fs)
    ensures AllContinue(fs, n) <==> forall i :: 0 < i < n ==> ContinuesAt(fs, i)
  {
    if n > 1 {
      AllContinueMeans(fs, n - 1);
    }
  }

  /**
   Over any run at one rate, in any timebase the first frame may choose: every frame
   comes out exactly where the one before it ends if and only if every later frame
   meets its condition.
   */
  lemma {:induction false} ContiguousIff(fs: seq<Frame>, n: nat)
    requires n <= |fs| && ValidFrames(fs) && OneRate(fs) && Correct(fs, n)
    ensures Contiguous(fs, n) <==> AllContinue(fs, n)
  {
    if n == 1 {
      FirstIsPlaced(fs);
    } else if n > 1 {
      ContiguousIff(fs, n - 1);
      if Placed(fs, n - 2) {
        NextIsPlacedIff(fs, n - 1);
      }
    }
  }

  // ----------------------------------------------------------- special streams

  /** Streams of missing and fine timestamps come out contiguous, in any timebase. */
  lemma DirectStreamIsContiguous(fs: seq<Frame>, n: nat)
    requires n <= |fs| && ValidFrames(fs) && OneRate(fs) && Correct(fs, n)
    requires forall i :: 0 < i < n ==> Direct(fs[i], StreamDen(fs[0]))
    ensures Contiguous(fs, n)
  {
    assert forall i :: 0 < i < n ==> ContinuesAt(fs, i);
    AllContinueMeans(fs, n);
    ContiguousIff(fs, n);
  }

  /** Without the fallback the timebase counts a whole number q of units a sample. */
  lemma UnitsPerSample(f: Frame) returns (q: int)
    requires ValidFrame(f) && !FallsBack(Start(), f)
    ensures q > 0 && StreamDen(f) == q * f.rate
  {
    DenGrows(Start(), f);
    q :| StreamDen(f) == q * f.rate;
    MultipleIsFar(q, f.rate);
  }

  /** The number of samples in frames 0..n. */
  function SamplesBefore(fs: seq<Frame>, n: nat): nat
    requires n <= |fs|
  {
    if n == 0 then 0 else SamplesBefore(fs, n - 1) + fs[n-1].samples
  }

  lemma WholeUnits(samples: nat, q: int, rate: int)
    requires rate > 0 && q * rate >= 0
    ensures RescaleNear(samples, q * rate, rate) == q * samples
  {
    assert samples * (q * rate) == (q * samples) * rate;
    RescaleExact(samples, q * rate, rate, q * samples);
  }

  lemma Distribute(q: int, b: int, s: int)
    ensures q * (b + s) == q * b + q * s
  {
  }

  /** The contiguous positions are those of the samples. */
  lemma {:induction false} PosCountsSamples(fs: seq<Frame>, q: int, i: nat)
    requires i < |fs| && ValidFrames(fs) && OneRate(fs) && StreamDen(fs[0]) == q * fs[0].rate
    ensures Pos(fs, i) == FirstPosition(fs[0]) + q * SamplesBefore(fs, i)
  {
    if i > 0 {
      PosCountsSamples(fs, q, i - 1);
      assert fs[i-1].rate == fs[0].rate;
      WholeUnits(fs[i-1].samples, q, fs[i-1].rate);
      Distribute(q, SamplesBefore(fs, i - 1), fs[i-1].samples);
    }
  }

  /**
   With more than one unit a sample the state lags, and a coarse timestamp continues
   only where its position is the earliest one it allows, or where the state is
   overruled and the timestamp itself is exact.
   */
  lemma LaggingStreamIff(fs: seq<Frame>, q: int, i: nat)
    requires 0 < i < |fs| && ValidFrames(fs) && OneRate(fs) && StreamDen(fs[0]) == q * fs[0].rate && q > 1
    requires fs[i-1].samples > 0 && fs[i].samples > 0
    requires !Direct(fs[i], StreamDen(fs[0])) && Follows(fs[i], Pos(fs, i), StreamDen(fs[0]))
    ensures var lo, hi := Lo(fs[i], StreamDen(fs[0])), Hi(fs[i], StreamDen(fs[0]));
            ContinuesAt(fs, i) <==>
            if Pos(fs, i - 1) + fs[i-1].samples >= 2 * lo - hi then Pos(fs, i) == lo
            else RescaleNear(fs[i].pts.value, fs[i].tbNum * StreamDen(fs[0]), fs[i].tbDen) == Pos(fs, i)
  {
    PosCountsSamples(fs, q, i - 1);
    PosCountsSamples(fs, q, i);
    var s, b := fs[i-1].samples, SamplesBefore(fs, i - 1);
    Distribute(q, b, s);
    TimesMonotone(2, q, s);
    WindowHolds(fs[i], StreamDen(fs[0]), Pos(fs, i));
  }

  /** The frame's own timebase does not replace one over its rate. */
  predicate KeepsRate(f: Frame)
    requires ValidFrame(f)
  {
    !(f.tbNum == 1 && f.tbDen > f.rate && f.tbDen % f.rate == 0)
  }

  lemma KeepsRateIff(f: Frame)
    requires ValidFrame(f) && !FallsBack(Start(), f)
    ensures KeepsRate(f) <==> StreamDen(f) == f.rate
  {
    GcdOfOne(f.rate);
  }

  /** One unit a sample: the stream comes out contiguous, whatever the timebases of its timestamps. */
  lemma OneRateStreamIsContiguous(fs: seq<Frame>, n: nat)
    requires 0 < n <= |fs| && ValidFrames(fs) && OneRate(fs) && Correct(fs, n)
    requires StreamDen(fs[0]) == fs[0].rate
    requires forall i :: 0 < i < n ==> Direct(fs[i], fs[0].rate) || fs[i].samples > 0
    ensures Contiguous(fs, n)
    ensures forall i :: 0 <= i < n ==> Pos(fs, i) == FirstPosition(fs[0]) + SamplesBefore(fs, i)
    ensures forall i :: 0 <= i < n ==> Process(At(fs, i), fs[i]).1 == OutFrame(Pos(fs, i), fs[i].samples, fs[i].rate)
  {
    forall i | 0 < i < n
      ensures ContinuesAt(fs, i)
    {
      PosCountsSamples(fs, 1, i - 1);
      PosCountsSamples(fs, 1, i);
      assert Follows(fs[i], Pos(fs, i), StreamDen(fs[0]));
      InStepMeetsCondition(fs[i], Pos(fs, i), fs[0].rate);
    }
    AllContinueMeans(fs, n);
    ContiguousIff(fs, n);
    ContiguousMeans(fs, n);
    forall i | 0 <= i < n
      ensures Pos(fs, i) == FirstPosition(fs[0]) + SamplesBefore(fs, i)
      ensures Process(At(fs, i), fs[i]).1 == OutFrame(Pos(fs, i), fs[i].samples, fs[i].rate)
    {
      assert Placed(fs, i);
      PosCountsSamples(fs, 1, i);
      OneRateState(fs, i);
      assert fs[i].rate == fs[0].rate;
      RescaleExact(Pos(fs, i), fs[i].rate, fs[i].rate, Pos(fs, i));
    }
  }

  lemma InStepMeetsCondition(f: Frame, pos: int, den: int)
    requires ValidFrame(f) && den > 0 && Follows(f, pos, den) && (Direct(f, den) || f.samples > 0)
    ensures Continues(f, pos, den, Some(pos))
  {
    if !Direct(f, den) {
      WindowHolds(f, den, pos);
    }
  }

  /** Two units a sample: a stream whose second timestamp, in milliseconds, is correct and is not continued. */
  lemma FinerTimebaseBreaksContinuity()
    ensures var fs := [Frame(Some(0), 1, 44100, 22050, 1024), Frame(Some(46), 1, 1000, 22050, 1024)];
            && ValidFrames(fs) && OneRate(fs) && !FallsBack(Start(), fs[0]) && StreamDen(fs[0]) == 44100
            && Correct(fs, 2) && !ContinuesAt(fs, 1) && !Placed(fs, 1)
  {
    var fs := [Frame(Some(0), 1, 44100, 22050, 1024), Frame(Some(46), 1, 1000, 22050, 1024)];
    GcdOfOne(22050);
    assert StreamDen(fs[0]) == 44100;
    RescaleExact(0, 44100, 44100, 0);
    RescaleExact(1024, 44100, 22050, 2048);
    assert Pos(fs, 0) == 0 && Pos(fs, 1) == 2048;
    FirstIsPlaced(fs);
    NextIsPlacedIff(fs, 1);
  }

  // ------------------------------------------------------- streams of any rates

  /** Frame n is placed without the conversion state, and says no more than that it follows. */
  ghost predicate FollowsDirectly(fs: seq<Frame>, n: nat)
    requires n < |fs| && ValidFrames(fs)
  {
    var d := Update(At(fs, n), fs[n]);
    Follows(fs[n], Predicted(d), d.den) && Direct(fs[n], d.den)
  }

  /** While the fallback has not fired, such a frame starts where the one before it ends, across changes of rate. */
  lemma DirectFollows(fs: seq<Frame>, n: nat)
    requires 0 < n < |fs| && ValidFrames(fs) && NoFallback(fs) && FollowsDirectly(fs, n)
    ensures Position(fs, n + 1) == Position(fs, n) + Seconds(fs[n-1].samples, fs[n-1].rate)
  {
    var d, f := At(fs, n), fs[n];
    RateInvKept(fs, n);
    assert ExactAt(fs, n);
    HistoryExact(d, f);
    var d' := Update(d, f);
    SameSeconds(d'.pts.value, d'.den, d.pts.value, d.den);
    SameSeconds(d'.dur, d'.den, d.dur, d.den);
    SumSeconds(d'.pts.value, d'.dur, d'.den);
    DirectContinues(d', f);
    DurationExact(fs, n);
  }

  /** So a run of them is placed at the sum of the durations. */
  lemma {:induction false} DirectFramesPlacedExactly(fs: seq<Frame>, i: nat, j: nat)
    requires 0 < i <= j <= |fs| && ValidFrames(fs) && NoFallback(fs)
    requires forall k :: i <= k < j ==> FollowsDirectly(fs, k)
    ensures Position(fs, j) == Position(fs, i) + Playing(fs, i - 1, j - 1)
  {
    if i < j {
      DirectFramesPlacedExactly(fs, i, j - 1);
      assert FollowsDirectly(fs, j - 1);
      DirectFollows(fs, j - 1);
    }
  }

  // ----------------------------------------------------------- a change of rate

  lemma CommonRatesGcd()
    ensures Gcd(44100, 48000) == 300
  {
    assert Gcd(1200, 300) == Gcd(300, 0) == 300;
    assert Gcd(44100, 3900) == Gcd(3900, 1200) == Gcd(1200, 300);
    assert Gcd(44100, 48000) == Gcd(48000, 44100) == Gcd(44100, 3900);
  }

  const CHANGED := Frame(Some(23), 1, 1000, 48000, 1024)

  lemma ChangedTimebase(d: Dec)
    requires d == Dec(Some(0), 1024, 44100, Some(1024), 44100)
    ensures !FallsBack(d, CHANGED)
    ensures Update(d, CHANGED) == Dec(Some(0), 163840, 7056000, Some(1024), 48000)
  {
    CommonRatesGcd();
    assert RateDen(d, CHANGED) == 44100 / 300 * 48000 == 7056000;
    RescaleExact(0, 7056000, 44100, 0);
    RescaleExact(1024, 7056000, 44100, 163840);
  }

  /**
   One rate is needed: after a change from 44100 to 48000 Hz the state lags, and a
   correct millisecond timestamp is not placed where the frame before it ends.
   */
  lemma RateChangeBreaksContinuity()
    ensures var e := Frame(Some(0), 1, 1000, 44100, 1024);
            && ValidFrames([e, CHANGED]) && !FallsBack(Start(), e) && !FallsBack(At([e, CHANGED], 1), CHANGED)
            && var d := Update(At([e, CHANGED], 1), CHANGED);
            && Rounds(CHANGED, Predicted(d), d.den) && Coarse(CHANGED, d.den) && !InStep(d)
            && At([e, CHANGED], 2).pts != Some(Predicted(d))
  {
    var e := Frame(Some(0), 1, 1000, 44100, 1024);
    GcdOfOne(44100);
    RescaleExact(0, 44100, 1, 0);
    RescaleExact(0, 44100, 1000, 0);
    RescaleExact(1024, 44100, 44100, 1024);
    assert At([e, CHANGED], 0) == Start();
    assert At([e, CHANGED], 1) == Following(e, 0);
    ChangedTimebase(Following(e, 0));
    LaggingContinuesIff(Update(Following(e, 0), CHANGED), CHANGED);
  }
}
