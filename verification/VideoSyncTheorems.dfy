/** What frame-rate conversion guarantees over any run: bounded drift, frame conservation, ordered timestamps. */
module VideoSyncTheorems {
  import opened Rounding
  import opened VideoSyncModel

  // -------------------------------------------------------------------- drift

  /** Where the input frame ends, in output frames. */
  function End(f: Frame): real { f.ipts + f.duration }

  /** How far the output clock lags behind the end of the frame just processed. */
  function Drift(c: Config, s: Sync, f: Frame): real
    requires ValidSync(s)
  {
    End(f) - Step(c, s, f).nextPts as real
  }

  /** One frame at constant rate: half an output frame at most is still owed. */
  lemma CfrStepDrift(c: Config, s: Sync, f: Frame)
    requires ValidSync(s) && c.vsync.CFR? && c.dropThreshold == 0.0
    requires !Decide(c, s, f).skipped
    ensures Drift(c, s, f) <= 0.5
    ensures Delta(s, f) >= -2.1 ==> Drift(c, s, f) >= -2.1
  {
    var delta := Delta(s, f);
    var (nb, prev, pts) := Proposed(c, s, f);
    if delta > 1.1 {
      LlrintAtLeast(delta, 1);
    }
    assert Drift(c, s, f) == delta - nb as real;
  }

  /** The same for VSCFR, whose clock is rounded once, when it is rebased onto the first frame. */
  lemma VscfrStepDrift(c: Config, s: Sync, f: Frame)
    requires ValidSync(s) && c.vsync.VSCFR? && c.dropThreshold == 0.0
    requires !Decide(c, s, f).skipped
    ensures Drift(c, s, f) <= if Rebased(c, s, f) then 1.0 else 0.5
  {
    var (nb, prev, pts) := Proposed(c, s, f);
    if Rebased(c, s, f) {
      if f.duration > 1.1 {
        LlrintAtLeast(f.duration, 1);
      }
      assert Drift(c, s, f) == f.ipts + f.duration - pts as real - (if nb > 0 then nb else 0) as real;
    } else {
      if Delta(s, f) > 1.1 {
        LlrintAtLeast(Delta(s, f), 1);
      }
      assert Drift(c, s, f) == Delta(s, f) - nb as real;
    }
  }

  /** Input frames end no earlier than their predecessors, the first no earlier than time 0. */
  ghost predicate EndsInOrder(fs: seq<Frame>) {
    && (fs != [] ==> End(fs[0]) >= 0.0)
    && forall i :: 0 < i < |fs| ==> End(fs[i-1]) <= End(fs[i])
  }

  /** The drift left by frame i of a run. */
  function DriftAt(c: Config, fs: seq<Frame>, i: nat): real
    requires i < |fs|
  {
    Drift(c, StateAt(c, fs, i), fs[i])
  }

  /**
   The drift bound over any run at constant rate: after each frame at most half a
   frame is owed, and if the input's end times never go back, at most 2.1 frames
   have been sent ahead.
   */
  lemma {:induction false} CfrDriftBounded(c: Config, fs: seq<Frame>, i: nat)
    requires c.vsync.CFR? && c.dropThreshold == 0.0
    requires i < |fs| && NoSkip(c, fs, i + 1)
    ensures DriftAt(c, fs, i) <= 0.5
    ensures EndsInOrder(fs) ==> DriftAt(c, fs, i) >= -2.1
  {
    var s := StateAt(c, fs, i);
    assert NoSkipAt(c, fs, i);
    CfrStepDrift(c, s, fs[i]);
    if i > 0 {
      CfrDriftBounded(c, fs, i - 1);
      DeltaFromDrift(c, fs, i);
    }
  }

  lemma DeltaFromDrift(c: Config, fs: seq<Frame>, i: nat)
    requires 0 < i < |fs|
    ensures Delta(StateAt(c, fs, i), fs[i]) == DriftAt(c, fs, i - 1) + End(fs[i]) - End(fs[i-1])
  {
  }

  // -------------------------------------------------------------- conservation

  /** One frame in; copies, minus drops, come out, up to a frame whose sending is still pending. */
  predicate Balanced(c: Config, s: Sync, f: Frame)
    requires ValidSync(s)
  {
    var s' := Step(c, s, f);
    Sends(c, s, f) == 1 + (s'.dup - s.dup) - (s'.drop - s.drop) - (s'.lastDropped - s.lastDropped)
  }

  /** How many frames are sent for f. */
  function Sends(c: Config, s: Sync, f: Frame): nat
    requires ValidSync(s)
  {
    |Outs(Decide(c, s, f), s.haveLast)|
  }

  predicate PendingIsFlag(s: Sync) { s.lastDropped == 0 || s.lastDropped == 1 }

  /** The previous frame would be sent more often than frames are sent in all. */
  predicate Overtakes(c: Config, s: Sync, f: Frame) {
    var (nb, prev, _) := Proposed(c, s, f);
    prev > nb
  }

  lemma ProposedRange(c: Config, s: Sync, f: Frame)
    ensures var (nb, prev, _) := Proposed(c, s, f); nb >= 0 && prev >= 0
  {
    var delta0, delta := Delta0(s, f), Delta(s, f);
    if delta > 1.1 {
      LlrintAtLeast(delta, 1);
    }
    if f.duration > 1.1 {
      LlrintAtLeast(f.duration, 1);
    }
    if delta0 > 1.1 {
      LlrintAtLeast(delta0 - 0.6, 0);
    }
  }

  /** The counters account for a frame exactly when the previous frame does not overtake it. */
  lemma BalancedIff(c: Config, s: Sync, f: Frame)
    requires ValidSync(s) && PendingIsFlag(s) && !Decide(c, s, f).skipped
    ensures Balanced(c, s, f) <==> !Overtakes(c, s, f)
    ensures PendingIsFlag(Step(c, s, f))
  {
    ProposedRange(c, s, f);
  }

  /** When that happens, in terms of the input alone. */
  lemma OvertakesIff(c: Config, s: Sync, f: Frame)
    ensures Overtakes(c, s, f) <==>
            && !c.vsync.VFR? && !Rebased(c, s, f)
            && !(c.dropThreshold != 0.0 && Delta(s, f) < c.dropThreshold && s.frameNumber > 0)
            && Delta(s, f) > 1.1 && Delta0(s, f) > 1.1
            && Llrint(Delta0(s, f) - 0.6) > Llrint(Delta(s, f))
  {
    if Delta(s, f) > 1.1 {
      LlrintAtLeast(Delta(s, f), 1);
    }
    if f.duration > 1.1 {
      LlrintAtLeast(f.duration, 1);
    }
  }

  /** A frame of non-negative duration is never overtaken. */
  lemma NonNegativeNeverOvertakes(c: Config, s: Sync, f: Frame)
    requires f.duration >= 0.0
    ensures !Overtakes(c, s, f)
  {
    OvertakesIff(c, s, f);
    if Delta0(s, f) > 1.1 {
      assert Delta(s, f) == Delta0(s, f) + f.duration;
      LlrintMonotone(Delta0(s, f) - 0.6, Delta(s, f));
    }
  }

  /** A frame of negative duration can be, and is then not accounted for. */
  lemma NegativeDurationUnbalanced()
    ensures var c := Config(CFR, 0.0, 1000.0);
            var f := Frame(10.0, -5.0);
            !Decide(c, Start(), f).skipped && !Balanced(c, Start(), f)
  {
    var c := Config(CFR, 0.0, 1000.0);
    var f := Frame(10.0, -5.0);
    assert Delta0(Start(), f) == 10.0 && Delta(Start(), f) == 5.0;
    assert 5.0.Floor == 5 && 9.4.Floor == 9;
    assert Llrint(5.0) == 5 && Llrint(9.4) == 9;
    assert !Decide(c, Start(), f).skipped;
    BalancedIff(c, Start(), f);
  }

  /** How the clock and the frame count move: by what is sent. */
  lemma StepCounts(c: Config, s: Sync, f: Frame)
    requires ValidSync(s)
    ensures var s', d := Step(c, s, f), Decide(c, s, f);
            && s'.frameNumber == s.frameNumber + |Outs(d, s.haveLast)|
            && s'.nextPts == d.nextPts + |Outs(d, s.haveLast)|
  {
  }

  /** A frame that is not skipped, but overtaken by the one before it. */
  predicate IsOvertaken(c: Config, s: Sync, f: Frame) { !Decide(c, s, f).skipped && Overtakes(c, s, f) }

  /**
   The "duplication too large" exit counts the frame as dropped.  It leaves the mark
   that the previous frame is pending, although that one was just counted as well.
   */
  predicate CountsTwice(c: Config, s: Sync, f: Frame) {
    var (_, prev, _) := Proposed(c, s, f);
    Decide(c, s, f).skipped && prev == 0 && s.lastDropped != 0
  }

  /** How many of the first n frames were overtaken. */
  function Overtaken(c: Config, fs: seq<Frame>, n: nat): nat
    requires n <= |fs|
  {
    if n == 0 then 0 else Overtaken(c, fs, n - 1) + Int(IsOvertaken(c, StateAt(c, fs, n - 1), fs[n-1]))
  }

  /** At how many of them a drop was counted twice. */
  function CountedTwice(c: Config, fs: seq<Frame>, n: nat): nat
    requires n <= |fs|
  {
    if n == 0 then 0 else CountedTwice(c, fs, n - 1) + Int(CountsTwice(c, StateAt(c, fs, n - 1), fs[n-1]))
  }

  /** The accounts after `received` frames came in and `sent` went out. */
  ghost predicate Account(s: Sync, received: int, sent: int, overtaken: int, twice: int) {
    && PendingIsFlag(s) && s.frameNumber == sent
    && sent == received + s.dup - s.drop - s.lastDropped - overtaken + twice
  }

  /** What the counters get wrong of one frame. */
  lemma BalanceOf(c: Config, s: Sync, f: Frame)
    requires ValidSync(s) && PendingIsFlag(s)
    ensures var s' := Step(c, s, f);
            Sends(c, s, f) + Int(IsOvertaken(c, s, f)) - Int(CountsTwice(c, s, f)) ==
            1 + (s'.dup - s.dup) - (s'.drop - s.drop) - (s'.lastDropped - s.lastDropped)
    ensures PendingIsFlag(Step(c, s, f))
  {
    ProposedRange(c, s, f);
  }

  lemma StepKeepsAccount(c: Config, s: Sync, f: Frame, received: int, sent: int, overtaken: int, twice: int)
    requires ValidSync(s) && Account(s, received, sent, overtaken, twice)
    ensures Account(Step(c, s, f), received + 1, sent + Sends(c, s, f),
                    overtaken + Int(IsOvertaken(c, s, f)), twice + Int(CountsTwice(c, s, f)))
  {
    BalanceOf(c, s, f);
    StepCounts(c, s, f);
  }

  /**
   Frame conservation over any run, before the end of the stream: frames sent are
   frames received plus duplicates minus drops, minus one if the last frame is
   still pending, but for the overtaken frames and the drops counted twice.
   */
  lemma {:induction false} FramesAccounted(c: Config, fs: seq<Frame>, n: nat)
    requires n <= |fs|
    ensures Account(StateAt(c, fs, n), n, |SentUpTo(c, fs, n)|, Overtaken(c, fs, n), CountedTwice(c, fs, n))
  {
    if n > 0 {
      FramesAccounted(c, fs, n - 1);
      FrameAccounted(c, fs, n);
    }
  }

  lemma FrameAccounted(c: Config, fs: seq<Frame>, n: nat)
    requires 0 < n <= |fs|
    requires Account(StateAt(c, fs, n - 1), n - 1, |SentUpTo(c, fs, n - 1)|,
                     Overtaken(c, fs, n - 1), CountedTwice(c, fs, n - 1))
    ensures Account(StateAt(c, fs, n), n, |SentUpTo(c, fs, n)|, Overtaken(c, fs, n), CountedTwice(c, fs, n))
  {
    StepKeepsAccount(c, StateAt(c, fs, n - 1), fs[n-1], n - 1, |SentUpTo(c, fs, n - 1)|,
                     Overtaken(c, fs, n - 1), CountedTwice(c, fs, n - 1));
  }

  lemma {:induction false} NoSkipCountsOnce(c: Config, fs: seq<Frame>, n: nat, i: nat)
    requires i <= n <= |fs| && NoSkip(c, fs, n)
    ensures CountedTwice(c, fs, i) == 0
  {
    if i > 0 {
      NoSkipCountsOnce(c, fs, n, i - 1);
      assert NoSkipAt(c, fs, i - 1);
    }
  }

  /** Without that exit the counters account for every frame of a run exactly when none was overtaken ... */
  lemma FramesConservedIff(c: Config, fs: seq<Frame>, n: nat)
    requires n <= |fs| && NoSkip(c, fs, n)
    ensures Account(StateAt(c, fs, n), n, |SentUpTo(c, fs, n)|, 0, 0) <==> Overtaken(c, fs, n) == 0
  {
    FramesAccounted(c, fs, n);
    NoSkipCountsOnce(c, fs, n, n);
  }

  /** ... as in every run of non-negative durations. */
  lemma FramesConserved(c: Config, fs: seq<Frame>, n: nat)
    requires n <= |fs| && NoSkip(c, fs, n)
    requires forall i :: 0 <= i < n ==> NonNegative(fs, i)
    ensures Account(StateAt(c, fs, n), n, |SentUpTo(c, fs, n)|, 0, 0)
  {
    NonNegativeRun(c, fs, n, n);
    FramesConservedIff(c, fs, n);
  }

  lemma NonNegativeAt(c: Config, fs: seq<Frame>, n: nat)
    requires 0 < n <= |fs| && fs[n-1].duration >= 0.0
    ensures Overtaken(c, fs, n) == Overtaken(c, fs, n - 1)
  {
    NonNegativeNeverOvertakes(c, StateAt(c, fs, n - 1), fs[n-1]);
  }

  predicate NonNegative(fs: seq<Frame>, i: nat)
    requires i < |fs|
  {
    fs[i].duration >= 0.0
  }

  lemma {:induction false} NonNegativeRun(c: Config, fs: seq<Frame>, n: nat, i: nat)
    requires i <= n <= |fs| && forall j :: 0 <= j < n ==> NonNegative(fs, j)
    ensures Overtaken(c, fs, i) == 0
  {
    if i > 0 {
      assert NonNegative(fs, i - 1);
      NonNegativeAt(c, fs, i);
      NonNegativeRun(c, fs, n, i - 1);
    }
  }

  /** A frame far behind the output is not sent, and stays pending. */
  lemma BehindIsPending(c: Config, s: Sync, f: Frame)
    requires ValidSync(s) && c.vsync.CFR? && Delta(s, f) < -1.1
    ensures Step(c, s, f).nextPts == s.nextPts && Step(c, s, f).lastDropped == 1
  {
    assert Proposed(c, s, f) == (0, 0, s.nextPts);
    assert !TooLarge(c, s, 0, 0);
  }

  /** A frame that is far too long is skipped; if one is pending and not to be repeated, its drop is counted twice. */
  lemma TooLongCountsTwice(c: Config, s: Sync, f: Frame, n: nat)
    requires ValidSync(s) && c.vsync.CFR? && c.dropThreshold == 0.0 && s.lastDropped == 1
    requires f == Frame(s.nextPts as real, n as real) && n > 1 && n as real > c.dtsErrorThreshold * 30.0
    ensures CountsTwice(c, s, f)
  {
    LlrintOfInt(n);
    assert Delta0(s, f) == 0.0 && Delta(s, f) == n as real;
    assert Proposed(c, s, f) == (n, 0, s.nextPts);
  }

  lemma TwoFramesLong(c: Config)
    requires c == Config(CFR, 0.0, 1.0)
    ensures Step(c, Start(), Frame(0.0, 2.0)).nextPts == 2
  {
    LlrintOfInt(2);
    assert Proposed(c, Start(), Frame(0.0, 2.0)) == (2, 0, 0);
  }

  /** So that exit can spoil the accounts: a frame, one behind the output, and one that is far too long. */
  lemma SkippingCountsTwice()
    ensures CountedTwice(Config(CFR, 0.0, 1.0), [Frame(0.0, 2.0), Frame(0.0, 0.0), Frame(2.0, 100.0)], 3) > 0
  {
    var c := Config(CFR, 0.0, 1.0);
    var fs := [Frame(0.0, 2.0), Frame(0.0, 0.0), Frame(2.0, 100.0)];
    assert StateAt(c, fs, 0) == Start();
    TwoFramesLong(c);
    assert StateAt(c, fs, 1).nextPts == 2;
    BehindIsPending(c, StateAt(c, fs, 1), fs[1]);
    assert StateAt(c, fs, 2).nextPts == 2;
    TooLongCountsTwice(c, StateAt(c, fs, 2), fs[2], 100);
  }

  // ---------------------------------------------------------------- timestamps

  ghost predicate Consecutive(outs: seq<Out>) {
    forall i :: 0 < i < |outs| ==> outs[i].pts == outs[i-1].pts + 1
  }

  ghost predicate Increasing(outs: seq<Out>) {
    forall i, j :: 0 <= i < j < |outs| ==> outs[i].pts < outs[j].pts
  }

  /** The next timestamp continues what was sent: exactly, at constant rate. */
  ghost predicate Continues(c: Config, outs: seq<Out>, nextPts: int) {
    outs != [] ==>
      var last := outs[|outs|-1].pts;
      if c.vsync.VFR? then last < nextPts else last + 1 == nextPts
  }

  lemma OutsAreConsecutive(d: Decision, haveLast: bool)
    ensures var o := Outs(d, haveLast);
            Consecutive(o) && Increasing(o) && (o != [] ==> o[0].pts == d.nextPts)
  {
  }

  lemma DecisionContinues(c: Config, s: Sync, f: Frame, outs: seq<Out>)
    requires s.frameNumber == |outs| && Continues(c, outs, s.nextPts)
    ensures Continues(c, outs, Decide(c, s, f).nextPts)
  {
    if c.vsync.VFR? && Delta(s, f) > 0.6 {
      assert Delta0(s, f) >= 0.0;
      LlrintAtLeast(SyncIpts(s, f), s.nextPts);
    }
  }

  lemma AppendKeepsOrder(c: Config, a: seq<Out>, b: seq<Out>, nextPts: int)
    requires Increasing(a) && Increasing(b) && Continues(c, a, nextPts)
    requires b != [] ==> b[0].pts == nextPts
    requires !c.vsync.VFR? ==> Consecutive(a) && Consecutive(b)
    ensures Increasing(a + b)
    ensures !c.vsync.VFR? ==> Consecutive(a + b)
  {
    if a != [] && b != [] {
      forall i, j | 0 <= i < |a| && |a| <= j < |a + b|
        ensures (a + b)[i].pts < (a + b)[j].pts
      {
        assert a[i].pts <= a[|a|-1].pts;
        assert b[0].pts <= b[j-|a|].pts;
      }
    }
  }

  ghost predicate InOrder(c: Config, outs: seq<Out>) {
    Increasing(outs) && (!c.vsync.VFR? ==> Consecutive(outs))
  }

  lemma AppendContinues(c: Config, a: seq<Out>, d: Decision, haveLast: bool)
    requires Continues(c, a, d.nextPts)
    ensures var b := Outs(d, haveLast); Continues(c, a + b, d.nextPts + |b|)
  {
    var b := Outs(d, haveLast);
    if b != [] {
      assert (a + b)[|a + b|-1] == b[|b|-1];
    } else {
      assert a + b == a;
    }
  }

  lemma StepKeepsOrder(c: Config, s: Sync, f: Frame, a: seq<Out>)
    requires ValidSync(s) && s.frameNumber == |a| && Continues(c, a, s.nextPts) && InOrder(c, a)
    ensures var b, s' := Outs(Decide(c, s, f), s.haveLast), Step(c, s, f);
            InOrder(c, a + b) && s'.frameNumber == |a + b| && Continues(c, a + b, s'.nextPts)
  {
    var d := Decide(c, s, f);
    DecisionContinues(c, s, f, a);
    OutsAreConsecutive(d, s.haveLast);
    AppendKeepsOrder(c, a, Outs(d, s.haveLast), d.nextPts);
    AppendContinues(c, a, d, s.haveLast);
    StepCounts(c, s, f);
  }

  lemma {:induction false} SentInOrder(c: Config, fs: seq<Frame>, n: nat)
    requires n <= |fs|
    ensures InOrder(c, SentUpTo(c, fs, n))
    ensures StateAt(c, fs, n).frameNumber == |SentUpTo(c, fs, n)|
    ensures Continues(c, SentUpTo(c, fs, n), StateAt(c, fs, n).nextPts)
  {
    if n > 0 {
      SentInOrder(c, fs, n - 1);
      StepKeepsOrder(c, StateAt(c, fs, n - 1), fs[n-1], SentUpTo(c, fs, n - 1));
    }
  }

  /**
   Output timestamps over any run, whatever the input, the end of the stream
   included: strictly increasing in every mode, and consecutive integers from the
   first frame sent on in the constant-rate modes.
   */
  lemma TimestampsOrdered(c: Config, fs: seq<Frame>)
    ensures Increasing(SentInAll(c, fs))
    ensures !c.vsync.VFR? ==> Consecutive(SentInAll(c, fs))
  {
    SentInOrder(c, fs, |fs|);
    var s := StateAt(c, fs, |fs|);
    OutsAreConsecutive(DecideEnd(c, s), true);
    AppendKeepsOrder(c, SentUpTo(c, fs, |fs|), EndOuts(c, s), s.nextPts);
  }
}
