/** The decoder's history fields and the frame, rewritten in place. */
module AudioTimebaseClass {
  import opened Wrappers
  import opened BinaryGcd
  import opened AudioTimebaseModel

  class AVFrame {
    var pts: Option<int>
    var tbNum: int
    var tbDen: int
    var duration: int
    const sampleRate: int
    const nbSamples: nat

    constructor (pts: Option<int>, tbNum: int, tbDen: int, sampleRate: int, nbSamples: nat)
      ensures Value() == Frame(pts, tbNum, tbDen, sampleRate, nbSamples)
    {
      this.pts, this.tbNum, this.tbDen, this.duration := pts, tbNum, tbDen, 0;
      this.sampleRate, this.nbSamples := sampleRate, nbSamples;
    }

    ghost function Value(): Frame
      reads this
    {
      Frame(pts, tbNum, tbDen, sampleRate, nbSamples)
    }
  }

  class DecoderPriv {
    var lastFramePts: Option<int>
    var lastFrameDurationEst: int
    var lastFrameTbDen: int
    var lastFilterInRescaleDelta: Option<int>
    var lastFrameSampleRate: int

    ghost function History(): Dec
      reads this
    {
      Dec(lastFramePts, lastFrameDurationEst, lastFrameTbDen, lastFilterInRescaleDelta, lastFrameSampleRate)
    }

    constructor ()
      ensures History() == Start()
    {
      lastFramePts, lastFrameDurationEst, lastFrameTbDen := None, 0, 1;
      lastFilterInRescaleDelta, lastFrameSampleRate := None, 0;
    }

    method AudioSamplerateUpdate(frame: AVFrame) returns (tbDen: int)
      requires ValidDec(History()) && ValidFrame(frame.Value())
      modifies this
      ensures History() == Update(old(History()), frame.Value())
      ensures tbDen == lastFrameTbDen == NewDen(old(History()), frame.Value())
    {
      ghost var d, f := History(), frame.Value();
      var prev := lastFrameTbDen;
      var sr := frame.sampleRate;
      if sr == lastFrameSampleRate {
        return lastFrameTbDen;
      }
      var gcd := AvGcd(prev, sr);
      var tbNew := COMMON_RATES;
      if !(prev / gcd >= AudioTimebaseModel.INT_MAX / sr) {
        tbNew := prev / gcd * sr;
      }
      assert tbNew == RateDen(d, f);
      RateDenRange(d, f);
      if frame.tbNum == 1 && frame.tbDen > tbNew && frame.tbDen % tbNew == 0 {
        tbNew := frame.tbDen;
      }
      if lastFramePts.Some? {
        lastFramePts := Some(RescaleNear(lastFramePts.value, tbNew, lastFrameTbDen));
      }
      lastFrameDurationEst := RescaleNear(lastFrameDurationEst, tbNew, lastFrameTbDen);
      lastFrameTbDen := tbNew;
      lastFrameSampleRate := sr;
      tbDen := lastFrameTbDen;
    }

    method AudioTsProcess(frame: AVFrame)
      requires ValidDec(History()) && ValidFrame(frame.Value())
      modifies this, frame
      ensures var (d, out) := Process(old(History()), old(frame.Value()));
              && History() == d
              && frame.pts == Some(out.pts) && frame.duration == out.duration
              && frame.tbNum == 1 && frame.tbDen == out.tbDen
    {
      ghost var f := frame.Value();
      var tb := AudioSamplerateUpdate(frame);
      ghost var d := History();
      PositiveProduct(frame.tbNum, tb);
      var ptsPred := if lastFramePts.Some? then lastFramePts.value + lastFrameDurationEst else 0;
      if frame.pts == None {
        frame.pts := Some(ptsPred);
        frame.tbNum, frame.tbDen := 1, tb;
      } else if lastFramePts.Some?
                && frame.pts.value > RescaleUp(ptsPred, frame.tbDen, frame.tbNum * tb) {
        lastFilterInRescaleDelta := None;
      }
      var (ts, last) :=
        RescaleDelta(frame.nbSamples, frame.pts.value, frame.tbNum, frame.tbDen, lastFilterInRescaleDelta, tb);
      lastFilterInRescaleDelta := Some(last);
      lastFramePts := Some(ts);
      lastFrameDurationEst := RescaleNear(frame.nbSamples, tb, frame.sampleRate);
      frame.pts := Some(RescaleNear(ts, frame.sampleRate, tb));
      frame.duration := frame.nbSamples;
      frame.tbNum, frame.tbDen := 1, frame.sampleRate;
    }
  }
}
