/** When a frame is shown: the timestamps given to frames against their own, in each mode, and what the end repeats. */
module VideoSyncTiming {
  import opened Rounding
  import opened VideoSyncModel
  import opened VideoSyncTheorems

  function Larger(x: real, y: real): real { if x > y then x else y }

  predicate Within(x: real, y: real, d: real) { -d <= x - y <= d }

  // -------------------------------------------------------------- variable rate

  /** The next free timestamp after what was sent. */
  function NextFree(outs: seq<Out>): int { if outs == [] then 0 else outs[|outs|-1].pts + 1 }

  /**
   One frame at variable rate: it is sent, once, exactly if its end is not 0.6 or
   more before the clock; with the clock's timestamp if its end is within 0.6 of
   that, and otherwise with its own, or the clock's if that is later, rounded.
   */
  lemma VfrStep(c: Config, s: Sync, f: Frame)
    requires ValidSync(s) && c.vsync.VFR?
    ensures var outs, next := Outs(Decide(c, s, f), s.haveLast), s.nextPts;
            if End(f) - next as real <= -0.6 then outs == [] && Step(c, s, f).nextPts == next
            else
              && |outs| == 1 && !outs[0].repeatsLast && Step(c, s, f).nextPts == outs[0].pts + 1
              && if End(f) - next as real <= 0.6 then outs[0].pts == next
                 else Within(outs[0].pts as real, Larger(f.ipts, next as real), 0.5)
  {
    assert Delta(s, f) == End(f) - s.nextPts as real;
    assert Delta(s, f) > 0.0 ==> SyncIpts(s, f) == Larger(f.ipts, s.nextPts as real);
  }

  lemma {:induction false} VfrClock(c: Config, fs: seq<Frame>, n: nat)
    requires n <= |fs| && c.vsync.VFR?
    ensures StateAt(c, fs, n).nextPts == NextFree(SentUpTo(c, fs, n))
  {
    if n > 0 {
      VfrClock(c, fs, n - 1);
      VfrGoesOn(c, StateAt(c, fs, n - 1), fs[n-1], SentUpTo(c, fs, n - 1));
    }
  }

  lemma VfrGoesOn(c: Config, s: Sync, f: Frame, sent: seq<Out>)
    requires ValidSync(s) && c.vsync.VFR? && s.nextPts == NextFree(sent)
    ensures Step(c, s, f).nextPts == NextFree(sent + Outs(Decide(c, s, f), s.haveLast))
  {
    VfrStep(c, s, f);
    assert sent + [] == sent;
  }

  /** What is sent for frame n of fs. */
  function SentFor(c: Config, fs: seq<Frame>, n: nat): seq<Out>
    requires n < |fs|
  {
    SentUpTo(c, fs, n + 1)[|SentUpTo(c, fs, n)|..]
  }

  lemma SentForIsDecided(c: Config, fs: seq<Frame>, n: nat)
    requires n < |fs|
    ensures var s := StateAt(c, fs, n);
            && SentUpTo(c, fs, n + 1) == SentUpTo(c, fs, n) + SentFor(c, fs, n)
            && SentFor(c, fs, n) == Outs(Decide(c, s, fs[n]), s.haveLast)
  {
    var s := StateAt(c, fs, n);
    var outs := Outs(Decide(c, s, fs[n]), s.haveLast);
    assert SentUpTo(c, fs, n + 1) == SentUpTo(c, fs, n) + outs;
  }

  /**
   Variable rate over any run, told by input and output alone: frame n is dropped
   exactly if it ends 0.6 or more before the next free timestamp, and otherwise sent
   once, at that timestamp if it ends within 0.6 of it, else within 1/2 of its own
   timestamp or of the next free one, whichever is later.
   */
  lemma VfrFollowsInput(c: Config, fs: seq<Frame>, n: nat)
    requires n < |fs| && c.vsync.VFR?
    ensures var outs, next := SentFor(c, fs, n), NextFree(SentUpTo(c, fs, n));
            if End(fs[n]) - next as real <= -0.6 then outs == []
            else
              && |outs| == 1 && !outs[0].repeatsLast
              && if End(fs[n]) - next as real <= 0.6 then outs[0].pts == next
                 else Within(outs[0].pts as real, Larger(fs[n].ipts, next as real), 0.5)
  {
    VfrClock(c, fs, n);
    VfrStep(c, StateAt(c, fs, n), fs[n]);
    SentForIsDecided(c, fs, n);
  }

  /** Frames that last long enough and are far enough apart to have timestamps of their own. */
  ghost predicate Spaced(fs: seq<Frame>) {
    && (fs != [] ==> fs[0].ipts >= 0.0)
    && (forall i :: 0 <= i < |fs| ==> fs[i].duration > 0.6)
    && (forall i :: 0 < i < |fs| ==> fs[i].ipts - fs[i-1].ipts >= 1.5)
  }

  /** Each of these frames was sent once, within half a tick of its own timestamp. */
  ghost predicate KeepTheirTimes(outs: seq<Out>, fs: seq<Frame>) {
    |outs| == |fs| && forall i :: 0 <= i < |fs| ==> Within(outs[i].pts as real, fs[i].ipts, 0.5)
  }

  lemma OneMoreKeepsItsTime(outs: seq<Out>, fs: seq<Frame>, o: Out, f: Frame)
    requires KeepTheirTimes(outs, fs) && Within(o.pts as real, f.ipts, 0.5)
    ensures KeepTheirTimes(outs + [o], fs + [f])
  {
  }

  lemma ClockIsBehind(outs: seq<Out>, fs: seq<Frame>, n: nat)
    requires n < |fs| && Spaced(fs) && KeepTheirTimes(outs, fs[..n])
    ensures NextFree(outs) as real <= fs[n].ipts
  {
  }

  /** Such a stream passes through: each frame is sent once, within half a tick of its own timestamp. */
  lemma {:induction false} SpacedFramesKeepTheirTimes(c: Config, fs: seq<Frame>, n: nat)
    requires n <= |fs| && c.vsync.VFR? && Spaced(fs)
    ensures KeepTheirTimes(SentUpTo(c, fs, n), fs[..n])
  {
    if n > 0 {
      var outs := SentUpTo(c, fs, n - 1);
      SpacedFramesKeepTheirTimes(c, fs, n - 1);
      ClockIsBehind(outs, fs, n - 1);
      VfrFollowsInput(c, fs, n - 1);
      SentForIsDecided(c, fs, n - 1);
      var o := SentFor(c, fs, n - 1)[0];
      assert SentUpTo(c, fs, n) == outs + [o];
      OneMoreKeepsItsTime(outs, fs[..n-1], o, fs[n-1]);
      assert fs[..n] == fs[..n-1] + [fs[n-1]];
    }
  }

  // -------------------------------------------------------------- constant rate

  ghost predicate Numbered(outs: seq<Out>) { forall i :: 0 <= i < |outs| ==> outs[i].pts == i }

  lemma CfrGoesOnCounting(c: Config, s: Sync, f: Frame, sent: seq<Out>)
    requires ValidSync(s) && c.vsync.CFR? && s.nextPts == |sent| && Numbered(sent)
    ensures var outs := Outs(Decide(c, s, f), s.haveLast);
            Numbered(sent + outs) && Step(c, s, f).nextPts == |sent + outs|
  {
    CfrKeepsClock(c, s, f);
    StepCounts(c, s, f);
  }

  /** At constant rate the output is numbered from zero without gaps, whatever comes in. */
  lemma {:induction false} CfrCountsFromZero(c: Config, fs: seq<Frame>, n: nat)
    requires n <= |fs| && c.vsync.CFR?
    ensures StateAt(c, fs, n).nextPts == |SentUpTo(c, fs, n)|
    ensures Numbered(SentUpTo(c, fs, n))
  {
    if n > 0 {
      CfrCountsFromZero(c, fs, n - 1);
      CfrGoesOnCounting(c, StateAt(c, fs, n - 1), fs[n-1], SentUpTo(c, fs, n - 1));
    }
  }

  lemma CfrKeepsClock(c: Config, s: Sync, f: Frame)
    requires c.vsync.CFR?
    ensures Decide(c, s, f).nextPts == s.nextPts
  {
  }

  /**
   When one frame is first shown itself: not before the clock, and if its own
   timestamp is not behind the clock, at most 1.1 output frames before that
   timestamp and never after it.
   */
  lemma ShownOnTime(c: Config, s: Sync, f: Frame)
    requires ValidSync(s) && !c.vsync.VFR? && !Rebased(c, s, f) && s.haveLast && f.duration >= 0.0
    requires !Decide(c, s, f).skipped
    ensures var outs, prev := Outs(Decide(c, s, f), true), Decide(c, s, f).prev;
            && prev >= 0
            && (forall i :: 0 <= i < |outs| ==> (outs[i].repeatsLast <==> i < prev))
            && (|outs| > prev ==>
                  var shown := outs[prev].pts;
                  if f.ipts < s.nextPts as real then shown == s.nextPts
                  else -1.1 <= shown as real - f.ipts <= 0.0)
  {
    ProposedRange(c, s, f);
    if f.ipts >= s.nextPts as real {
      assert Delta0(s, f) == f.ipts - s.nextPts as real && Delta(s, f) >= Delta0(s, f);
    }
  }

  /** The same over any run at constant rate: slot k of the output is the first that shows frame n. */
  lemma CfrShowsOnTime(c: Config, fs: seq<Frame>, n: nat)
    requires 0 < n < |fs| && c.vsync.CFR? && fs[n].duration >= 0.0 && NoSkipAt(c, fs, n)
    ensures var before, outs := |SentUpTo(c, fs, n)|, SentUpTo(c, fs, n + 1);
            forall k :: before <= k < |outs| && !outs[k].repeatsLast && (k > before ==> outs[k-1].repeatsLast) ==>
              if fs[n].ipts < before as real then k == before else -1.1 <= k as real - fs[n].ipts <= 0.0
  {
    var s := StateAt(c, fs, n);
    CfrCountsFromZero(c, fs, n);
    SentForIsDecided(c, fs, n);
    ShownOnTime(c, s, fs[n]);
    var before, outs, own := |SentUpTo(c, fs, n)|, SentUpTo(c, fs, n + 1), SentFor(c, fs, n);
    forall k | before <= k < |outs| && !outs[k].repeatsLast && (k > before ==> outs[k-1].repeatsLast)
      ensures if fs[n].ipts < before as real then k == before else -1.1 <= k as real - fs[n].ipts <= 0.0
    {
      assert outs[k] == own[k-before];
      assert k > before ==> outs[k-1] == own[k-before-1];
      assert k - before == Decide(c, s, fs[n]).prev;
    }
  }

  /** Dropped at constant rate: what ends more than 1.1 before the clock, or below the threshold. */
  lemma DroppedIff(c: Config, s: Sync, f: Frame)
    requires ValidSync(s) && !c.vsync.VFR? && !Rebased(c, s, f) && !Decide(c, s, f).skipped
    ensures var behind := End(f) - s.nextPts as real;
            Outs(Decide(c, s, f), s.haveLast) == [] <==>
            behind < -1.1 || (c.dropThreshold != 0.0 && behind < c.dropThreshold && s.frameNumber > 0)
  {
    assert Delta(s, f) == End(f) - s.nextPts as real;
    if Delta(s, f) > 1.1 {
      LlrintAtLeast(Delta(s, f), 1);
    }
  }

  /** VSCFR starts its clock at the first frame: that one is sent within half an output frame of its own timestamp. */
  lemma VscfrStartsWithFirst(c: Config, s: Sync, f: Frame)
    requires ValidSync(s) && c.vsync.VSCFR? && s.frameNumber == 0 && f.ipts >= s.nextPts as real
    ensures var outs := Outs(Decide(c, s, f), s.haveLast);
            outs != [] ==> !outs[0].repeatsLast && Within(outs[0].pts as real, f.ipts, 0.5)
  {
    assert Delta0(s, f) == f.ipts - s.nextPts as real;
  }

  // ---------------------------------------------------------- end of the stream

  predicate IsMedian(m: int, x: int, y: int, z: int) {
    && (m == x || m == y || m == z)
    && ((x <= m && y <= m) || (x <= m && z <= m) || (y <= m && z <= m))
    && ((x >= m && y >= m) || (x >= m && z >= m) || (y >= m && z >= m))
  }

  lemma MidPredIsMedian(x: int, y: int, z: int, m: int)
    ensures IsMedian(m, x, y, z) <==> m == MidPred(x, y, z)
  {
  }

  /** How often the frame before each of the first n was to be repeated, latest first; nothing before the start. */
  function Repeats(c: Config, fs: seq<Frame>, n: nat): (r: seq<int>)
    requires n <= |fs|
    ensures |r| == n + 3
  {
    if n == 0 then [0, 0, 0] else [Proposed(c, StateAt(c, fs, n - 1), fs[n-1]).1] + Repeats(c, fs, n - 1)
  }

  lemma StepShiftsHistory(c: Config, s: Sync, f: Frame, r: seq<int>)
    requires ValidSync(s) && |r| >= 3 && s.hist == r[..3]
    ensures Step(c, s, f).hist == ([Proposed(c, s, f).1] + r)[..3]
  {
  }

  lemma {:induction false} HistoryIsLastThree(c: Config, fs: seq<Frame>, n: nat)
    requires n <= |fs|
    ensures StateAt(c, fs, n).hist == Repeats(c, fs, n)[..3]
  {
    if n > 0 {
      HistoryIsLastThree(c, fs, n - 1);
      StepShiftsHistory(c, StateAt(c, fs, n - 1), fs[n-1], Repeats(c, fs, n - 1));
    }
  }

  /**
   The end of the stream repeats the last frame as often as the median of its last
   three repetitions says, with consecutive timestamps, unless that is too often.
   */
  lemma EndRepeatsMedian(c: Config, fs: seq<Frame>, m: nat)
    requires SentUpTo(c, fs, |fs|) != []
    requires var r := Repeats(c, fs, |fs|); IsMedian(m, r[0], r[1], r[2])
    ensures var s, sent, all := StateAt(c, fs, |fs|), SentUpTo(c, fs, |fs|), SentInAll(c, fs);
            && sent <= all
            && (forall i :: |sent| <= i < |all| ==> all[i] == Out(s.nextPts + i - |sent|, true))
            && |all| - |sent| == if m > Int(m > 0 && s.lastDropped != 0) && m as real > c.dtsErrorThreshold * 30.0
                                 then 0 else m
  {
    var s := StateAt(c, fs, |fs|);
    HistoryIsLastThree(c, fs, |fs|);
    MidPredIsMedian(s.hist[0], s.hist[1], s.hist[2], m);
    assert s.haveLast;
    assert |EndOuts(c, s)| == DecideEnd(c, s).nb;
  }
}
