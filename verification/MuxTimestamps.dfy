/** The muxer's per-stream state and the packet, updated in place. */
module MuxTimestampsClass {
  import opened Wrappers
  import opened MuxTimestampsModel

  class Packet {
    var pts: int
    var dts: int
    const size: nat

    constructor (pts: int, dts: int, size: nat)
      ensures this.pts == pts && this.dts == dts && this.size == size
    {
      this.pts, this.dts, this.size := pts, dts, size;
    }
  }

  class MuxStream {
    const cfg: Config
    var lastMuxDts: int
    var dataSizeMux: nat
    var packetsWritten: nat
    var written: seq<Stamps>      // what the muxer was handed

    constructor (cfg: Config)
      ensures this.cfg == cfg && lastMuxDts == NOPTS && dataSizeMux == 0 && packetsWritten == 0 && written == []
    {
      this.cfg := cfg;
      lastMuxDts, dataSizeMux, packetsWritten, written := NOPTS, 0, 0, [];
    }

    /** mux_fixup_ts, from the packet's timestamps in the stream's timebase on. */
    method MuxFixupTs(pkt: Packet) returns (error: Option<Error>)
      modifies this`lastMuxDts, pkt
      ensures match Fixup(cfg, old(Stamps(pkt.pts, pkt.dts)), old(lastMuxDts))
              case Ok(s) => error == None && Stamps(pkt.pts, pkt.dts) == s && lastMuxDts == s.dts
              case Err(e) => error == Some(e) && lastMuxDts == old(lastMuxDts)
    {
      if !cfg.noTimestamps {
        if pkt.dts != NOPTS && pkt.pts != NOPTS && pkt.dts > pkt.pts {
          var next := lastMuxDts + 1;
          var guess := pkt.pts + pkt.dts + next
                       - Min(Min(pkt.pts, pkt.dts), next)
                       - Max(Max(pkt.pts, pkt.dts), next);
          pkt.dts := guess;
          pkt.pts := guess;
        }
        if (cfg.media.Audio? || cfg.media.Video? || cfg.media.Subtitle?)
           && pkt.dts != NOPTS && lastMuxDts != NOPTS {
          var max := lastMuxDts + if cfg.nonStrict then 0 else 1;
          if pkt.dts < max {
            if cfg.exitOnError {
              return Some(InvalidArgument);
            }
            if pkt.pts >= pkt.dts {
              pkt.pts := Max(pkt.pts, max);
            }
            pkt.dts := max;
          }
        }
      }
      lastMuxDts := pkt.dts;
      error := None;
    }

    /**
     write_packet: nothing is done once the file has reached its size limit; a
     refused packet is not counted; a counted one may still fail to be written.
     */
    method WritePacket(pkt: Packet, fileSize: int, limit: int, accepted: bool) returns (error: Option<Error>)
      modifies this, pkt
      ensures fileSize >= limit ==>
                error == Some(EndOfFile) && lastMuxDts == old(lastMuxDts) && packetsWritten == old(packetsWritten)
                && written == old(written) && dataSizeMux == old(dataSizeMux)
      ensures fileSize < limit ==>
                match Fixup(cfg, old(Stamps(pkt.pts, pkt.dts)), old(lastMuxDts))
                case Err(e) =>
                  error == Some(e) && lastMuxDts == old(lastMuxDts) && packetsWritten == old(packetsWritten)
                  && written == old(written) && dataSizeMux == old(dataSizeMux)
                case Ok(s) =>
                  && error == (if accepted then None else Some(WriteFailed))
                  && lastMuxDts == s.dts && packetsWritten == old(packetsWritten) + 1
                  && dataSizeMux == old(dataSizeMux) + pkt.size
                  && written == old(written) + if accepted then [s] else []
    {
      if fileSize >= limit {
        return Some(EndOfFile);
      }
      error := MuxFixupTs(pkt);
      if error.Some? {
        return;
      }
      dataSizeMux := dataSizeMux + pkt.size;
      packetsWritten := packetsWritten + 1;
      if !accepted {
        return Some(WriteFailed);
      }
      written := written + [Stamps(pkt.pts, pkt.dts)];
    }
  }
}
