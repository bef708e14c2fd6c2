/** The converter itself: the fields updated in place, frame by frame. */
module VideoSyncClass {
  import opened Wrappers
  import opened Rounding
  import opened VideoSyncModel

  class OutputFilter {
    const cfg: Config
    var nextPts: int
    var frameNumber: nat
    const framesPrevHist: array<int>
    var lastDropped: int
    var nbFramesDup: int
    var nbFramesDrop: int
    var haveLast: bool
    var gotFrame: bool
    var sent: seq<Out>            // what the consumers have received

    ghost predicate Valid()
      reads this, framesPrevHist
    {
      framesPrevHist.Length == 3 && (gotFrame <==> sent != [])
    }

    ghost function State(): (s: Sync)
      requires Valid()
      reads this, framesPrevHist
      ensures ValidSync(s)
    {
      Sync(nextPts, frameNumber, framesPrevHist[..], lastDropped, nbFramesDup, nbFramesDrop, haveLast)
    }

    constructor (cfg: Config)
      ensures Valid() && State() == Start() && sent == [] && this.cfg == cfg && fresh(framesPrevHist)
    {
      this.cfg := cfg;
      nextPts, frameNumber, lastDropped, nbFramesDup, nbFramesDrop := 0, 0, 0, 0, 0;
      haveLast, gotFrame, sent := false, false, [];
      framesPrevHist := new int[3](_ => 0);
    }

    method ShiftHistory(latest: int)
      requires framesPrevHist.Length == 3
      modifies framesPrevHist
      ensures framesPrevHist[..] == [latest, old(framesPrevHist[0]), old(framesPrevHist[1])]
    {
      framesPrevHist[2] := framesPrevHist[1];
      framesPrevHist[1] := framesPrevHist[0];
      framesPrevHist[0] := latest;
    }

    /** The memmove of the history and the counters at `finish`. */
    method Finish(nbFrames: int, nbFramesPrev: int, isFrame: bool) returns (nb: int)
      requires Valid()
      modifies this`lastDropped, this`nbFramesDup, this`nbFramesDrop, framesPrevHist
      ensures Valid() && sent == old(sent)
      ensures State() == VideoSyncModel.Finish(cfg, old(State()), nbFrames, nbFramesPrev, isFrame)
      ensures nb == if TooLarge(cfg, old(State()), nbFrames, nbFramesPrev) then 0 else nbFrames
    {
      nb := nbFrames;
      ShiftHistory(nbFramesPrev);
      if nbFramesPrev == 0 && lastDropped != 0 {
        nbFramesDrop := nbFramesDrop + 1;
      }
      var once := Int(nbFramesPrev != 0 && lastDropped != 0) + Int(nb > nbFramesPrev);
      if nb > once {
        if nb as real > cfg.dtsErrorThreshold * 30.0 {
          nbFramesDrop := nbFramesDrop + 1;
          return 0;
        }
        nbFramesDup := nbFramesDup + nb - once;
      }
      lastDropped := Int(nb == nbFramesPrev && isFrame);
    }

    /** video_sync_process for a frame. */
    method VideoSyncProcess(f: Frame) returns (nbFrames: int, nbFramesPrev: int)
      requires Valid()
      modifies this`nextPts, this`lastDropped, this`nbFramesDup, this`nbFramesDrop, framesPrevHist
      ensures Valid() && sent == old(sent)
      ensures var d := Decide(cfg, old(State()), f);
              && nbFrames == d.nb && nbFramesPrev == d.prev && nextPts == d.nextPts
      ensures var (nb, prev, _) := Proposed(cfg, old(State()), f);
              State().(nextPts := old(nextPts)) == VideoSyncModel.Finish(cfg, old(State()), nb, prev, true)
    {
      ghost var s := State();
      var duration := f.duration;
      var syncIpts := f.ipts;
      var delta0 := syncIpts - nextPts as real;
      var delta := delta0 + duration;
      nbFramesPrev, nbFrames := 0, 1;
      if delta0 < 0.0 && delta > 0.0 {
        syncIpts := nextPts as real;
        duration := duration + delta0;
        delta0 := 0.0;
      }
      assert syncIpts == SyncIpts(s, f) && delta0 == Delta0(s, f) && delta == Delta(s, f);
      if cfg.vsync.VFR? {
        if delta <= -0.6 {
          nbFrames := 0;
        } else if delta > 0.6 {
          nextPts := Llrint(syncIpts);
        }
      } else {
        if cfg.vsync.VSCFR? && frameNumber == 0 && delta0 >= 0.5 {
          delta := duration;
          delta0 := 0.0;
          nextPts := Llrint(syncIpts);
        }
        if cfg.dropThreshold != 0.0 && delta < cfg.dropThreshold && frameNumber > 0 {
          nbFrames := 0;
        } else if delta < -1.1 {
          nbFrames := 0;
        } else if delta > 1.1 {
          nbFrames := Llrint(delta);
          if delta0 > 1.1 {
            nbFramesPrev := Llrint(delta0 - 0.6);
          }
        }
      }
      assert (nbFrames, nbFramesPrev, nextPts) == Proposed(cfg, s, f);
      nbFrames := Finish(nbFrames, nbFramesPrev, true);
    }

    /** video_sync_process at the end of the stream. */
    method VideoSyncFlush() returns (nbFrames: int, nbFramesPrev: int)
      requires Valid()
      modifies this`lastDropped, this`nbFramesDup, this`nbFramesDrop, framesPrevHist
      ensures Valid() && sent == old(sent)
      ensures var d := DecideEnd(cfg, old(State()));
              nbFrames == d.nb && nbFramesPrev == d.prev && nextPts == d.nextPts
      ensures State() == Ended(cfg, old(State()))
    {
      nbFrames := MidPred(framesPrevHist[0], framesPrevHist[1], framesPrevHist[2]);
      nbFramesPrev := nbFrames;
      if nbFrames == 0 && lastDropped != 0 {
        nbFramesDrop := nbFramesDrop + 1;
        lastDropped := lastDropped + 1;
      }
      nbFrames := Finish(nbFrames, nbFramesPrev, false);
    }

    /** The sending loop of fg_output_frame; without a current frame only copies of the last one can be sent. */
    method SendCopies(isFrame: bool, nbFrames: int, nbFramesPrev: int)
      requires gotFrame <==> sent != []
      requires !isFrame ==> nbFramesPrev == nbFrames || nbFrames <= 0
      modifies this`nextPts, this`frameNumber, this`gotFrame, this`sent
      ensures gotFrame <==> sent != []
      ensures var outs := if isFrame || haveLast
                          then Outs(Decision(nbFrames, nbFramesPrev, old(nextPts), false), haveLast) else [];
              && sent == old(sent) + outs
              && nextPts == old(nextPts) + |outs| && frameNumber == old(frameNumber) + |outs|
    {
      ghost var outs := Outs(Decision(nbFrames, nbFramesPrev, nextPts, false), haveLast);
      var i := 0;
      while i < nbFrames
        invariant 0 <= i <= |outs|
        invariant nextPts == old(nextPts) + i && frameNumber == old(frameNumber) + i
        invariant sent == old(sent) + outs[..i]
        invariant gotFrame <==> sent != []
        invariant i > 0 ==> isFrame || haveLast
      {
        var repeatsLast := i < nbFramesPrev && haveLast;
        if !repeatsLast && !isFrame {
          break;
        }
        assert outs[i] == Out(nextPts, repeatsLast);
        assert outs[..i+1] == outs[..i] + [outs[i]];
        sent := sent + [Out(nextPts, repeatsLast)];
        frameNumber := frameNumber + 1;
        nextPts := nextPts + 1;
        gotFrame := true;
        i := i + 1;
      }
      assert outs[..|outs|] == outs;
    }

    /** fg_output_frame for video: decide, send the copies one by one, keep the frame. */
    method FgOutputFrame(frame: Option<Frame>)
      requires Valid()
      modifies this, framesPrevHist
      ensures Valid()
      ensures frame.Some? ==>
                && State() == Step(cfg, old(State()), frame.value)
                && sent == old(sent) + Outs(Decide(cfg, old(State()), frame.value), old(haveLast))
      ensures frame.None? ==>
                && State() == (if old(sent) != [] then AfterEnd(cfg, old(State())) else old(State()))
                && sent == old(sent) + if old(sent) != [] then EndOuts(cfg, old(State())) else []
    {
      if frame.Some? {
        var nbFrames, nbFramesPrev := VideoSyncProcess(frame.value);
        SendCopies(true, nbFrames, nbFramesPrev);
        haveLast := true;
      } else if gotFrame {
        var nbFrames, nbFramesPrev := VideoSyncFlush();
        SendCopies(false, nbFrames, nbFramesPrev);
      }
    }
  }
}
