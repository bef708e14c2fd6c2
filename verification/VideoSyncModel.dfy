/**
 Frame-rate conversion (video_sync_process and the video part of fg_output_frame)
 as a function on the converter's state.  Times are in output frames: `ipts` is
 the input timestamp rescaled to the encoder timebase, `duration` the frame's.
 */
module VideoSyncModel {
  import opened Rounding

  datatype Vsync = CFR | VSCFR | VFR

  datatype Config = Config(vsync: Vsync, dropThreshold: real, dtsErrorThreshold: real)

  datatype Frame = Frame(ipts: real, duration: real)

  datatype Sync = Sync(
    nextPts: int,
    frameNumber: nat,       // frames sent so far
    hist: seq<int>,         // nb_frames_prev of the last three calls, latest first
    lastDropped: int,       // non-zero: the last input frame has not been sent (yet)
    dup: int,
    drop: int,
    haveLast: bool)         // a previous input frame is kept

  datatype Out = Out(pts: int, repeatsLast: bool)

  /** What video_sync_process decides: how often to send the previous frame, and how many frames in all. */
  datatype Decision = Decision(nb: int, prev: int, nextPts: int, skipped: bool)

  predicate ValidSync(s: Sync) { |s.hist| == 3 }

  function Start(): Sync { Sync(0, 0, [0, 0, 0], 0, 0, 0, false) }

  // ------------------------------------------------------------- the decision

  /** Drift of the frame's start against the output clock, after the clipping of an overlap. */
  function Delta0(s: Sync, f: Frame): real {
    var d0 := f.ipts - s.nextPts as real;
    if d0 < 0.0 && d0 + f.duration > 0.0 then 0.0 else d0
  }

  /** The frame's start after the clipping. */
  function SyncIpts(s: Sync, f: Frame): real { s.nextPts as real + Delta0(s, f) }

  /** Drift of the frame's end; clipping does not change it. */
  function Delta(s: Sync, f: Frame): real { f.ipts - s.nextPts as real + f.duration }

  /** VSCFR starts the output clock at the first frame instead of filling up from zero. */
  predicate Rebased(c: Config, s: Sync, f: Frame) {
    c.vsync.VSCFR? && s.frameNumber == 0 && Delta0(s, f) >= 0.5
  }

  /** The constant-rate decision for given drifts. */
  function ConstantRate(c: Config, s: Sync, delta0: real, delta: real): (int, int) {
    if c.dropThreshold != 0.0 && delta < c.dropThreshold && s.frameNumber > 0 then (0, 0)
    else if delta < -1.1 then (0, 0)
    else if delta > 1.1 then (Llrint(delta), if delta0 > 1.1 then Llrint(delta0 - 0.6) else 0)
    else (1, 0)
  }

  /** (nb_frames, nb_frames_prev, next_pts) before the duplication limit. */
  function Proposed(c: Config, s: Sync, f: Frame): (int, int, int) {
    var delta0, delta := Delta0(s, f), Delta(s, f);
    match c.vsync
    case VFR =>
      if delta <= -0.6 then (0, 0, s.nextPts)
      else (1, 0, if delta > 0.6 then Llrint(SyncIpts(s, f)) else s.nextPts)
    case _ =>
      if Rebased(c, s, f) then
        var (nb, prev) := ConstantRate(c, s, 0.0, f.duration);
        (nb, prev, Llrint(SyncIpts(s, f)))
      else
        var (nb, prev) := ConstantRate(c, s, delta0, delta);
        (nb, prev, s.nextPts)
  }

  function Int(b: bool): int { if b then 1 else 0 }

  /** Frames sent that are not a first sending of the previous or of this frame. */
  function Extra(s: Sync, nb: int, prev: int): int {
    nb - Int(prev != 0 && s.lastDropped != 0) - Int(nb > prev)
  }

  /** "frame duplication too large, skipping" */
  predicate TooLarge(c: Config, s: Sync, nb: int, prev: int) {
    Extra(s, nb, prev) > 0 && nb as real > c.dtsErrorThreshold * 30.0
  }

  function Decide(c: Config, s: Sync, f: Frame): Decision {
    var (nb, prev, nextPts) := Proposed(c, s, f);
    var skipped := TooLarge(c, s, nb, prev);
    Decision(if skipped then 0 else nb, prev, nextPts, skipped)
  }

  /** mid_pred of libavcodec/mathops.h. */
  function MidPred(a: int, b: int, c: int): int {
    if a > b then (if c > b then (if c > a then a else c) else b)
    else (if b > c then (if c > a then c else a) else b)
  }

  /** The end of the stream repeats the last frame as often as it was recently repeated. */
  function DecideEnd(c: Config, s: Sync): Decision
    requires ValidSync(s)
  {
    var nb := MidPred(s.hist[0], s.hist[1], s.hist[2]);
    var s1 := CountEnd(s, nb);
    var skipped := TooLarge(c, s1, nb, nb);
    Decision(if skipped then 0 else nb, nb, s.nextPts, skipped)
  }

  function CountEnd(s: Sync, nb: int): Sync {
    if nb == 0 && s.lastDropped != 0 then s.(drop := s.drop + 1, lastDropped := s.lastDropped + 1) else s
  }

  // ------------------------------------------------------- the state it leaves

  /** The bookkeeping at `finish`; nb is the number proposed, before a skip sets it to 0. */
  function Finish(c: Config, s: Sync, nb: int, prev: int, isFrame: bool): Sync
    requires ValidSync(s)
  {
    var s1 := s.(hist := [prev, s.hist[0], s.hist[1]],
                 drop := s.drop + Int(prev == 0 && s.lastDropped != 0));
    if TooLarge(c, s, nb, prev) then s1.(drop := s1.drop + 1)
    else s1.(dup := s1.dup + (if Extra(s, nb, prev) > 0 then Extra(s, nb, prev) else 0),
             lastDropped := Int(nb == prev && isFrame))
  }

  function Sent(s: Sync, d: Decision): Sync {
    var n := if d.nb > 0 then d.nb else 0;
    s.(nextPts := d.nextPts + n, frameNumber := s.frameNumber + n)
  }

  /** One input frame. */
  function Step(c: Config, s: Sync, f: Frame): (s': Sync)
    requires ValidSync(s)
    ensures ValidSync(s')
  {
    var (nb, prev, _) := Proposed(c, s, f);
    Sent(Finish(c, s, nb, prev, true), Decide(c, s, f)).(haveLast := true)
  }

  /** The frames one decision sends. */
  function Outs(d: Decision, haveLast: bool): seq<Out> {
    seq(if d.nb > 0 then d.nb else 0, i => Out(d.nextPts + i, i < d.prev && haveLast))
  }

  /** What the end of the stream sends: copies of the last frame, if there is one. */
  function EndOuts(c: Config, s: Sync): seq<Out>
    requires ValidSync(s)
  {
    if s.haveLast then Outs(DecideEnd(c, s), true) else []
  }

  /** The end of the stream, before anything is sent for it. */
  function Ended(c: Config, s: Sync): (s': Sync)
    requires ValidSync(s)
    ensures ValidSync(s')
  {
    var nb := MidPred(s.hist[0], s.hist[1], s.hist[2]);
    Finish(c, CountEnd(s, nb), nb, nb, false)
  }

  /** The end of the stream: the last frame is repeated if there is one. */
  function AfterEnd(c: Config, s: Sync): (s': Sync)
    requires ValidSync(s)
    ensures ValidSync(s')
  {
    var n := |EndOuts(c, s)|;
    Ended(c, s).(nextPts := s.nextPts + n, frameNumber := s.frameNumber + n)
  }

  // --------------------------------------------------------------------- runs

  /** The state after the first n frames of fs. */
  function StateAt(c: Config, fs: seq<Frame>, n: nat): (s: Sync)
    requires n <= |fs|
    ensures ValidSync(s)
  {
    if n == 0 then Start() else Step(c, StateAt(c, fs, n - 1), fs[n-1])
  }

  /** Everything sent for the first n frames of fs. */
  function SentUpTo(c: Config, fs: seq<Frame>, n: nat): seq<Out>
    requires n <= |fs|
  {
    if n == 0 then []
    else
      var s := StateAt(c, fs, n - 1);
      SentUpTo(c, fs, n - 1) + Outs(Decide(c, s, fs[n-1]), s.haveLast)
  }

  /** Everything sent for fs and the end of the stream after it, which adds nothing if nothing was sent before. */
  function SentInAll(c: Config, fs: seq<Frame>): seq<Out> {
    var sent := SentUpTo(c, fs, |fs|);
    if sent == [] then [] else sent + EndOuts(c, StateAt(c, fs, |fs|))
  }

  /** The "duplication too large" exit is not taken for frame i of fs. */
  ghost predicate NoSkipAt(c: Config, fs: seq<Frame>, i: nat)
    requires i < |fs|
  {
    !Decide(c, StateAt(c, fs, i), fs[i]).skipped
  }

  ghost predicate NoSkip(c: Config, fs: seq<Frame>, n: nat)
    requires n <= |fs|
  {
    forall i :: 0 <= i < n ==> NoSkipAt(c, fs, i)
  }
}
