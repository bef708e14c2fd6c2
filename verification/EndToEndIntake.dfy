/** Everything the relay writes to the streamer's connection gets into the signalling loop, in order. */
module EndToEndIntake {
  import opened Wrappers
  import opened StreamerModel
  import opened StreamerMessages
  import opened StreamerIntake
  import opened RelayModel
  import opened EndToEnd

  /** What the relay writes to the streamer's connection when it handles m from wsi. */
  ghost function WrittenToServer(n: Net, wsi: Conn, m: Msg): seq<Msg> {
    if Holds(n.relay.clients, n.srv, m.id) then [Stamped(m, wsi, NameOf(n.relay.clients, wsi))] else []
  }

  ghost function WrittenBy(n: Net, a: NetAction): seq<Msg>
    requires NetEnabled(n, a)
  {
    match a
    case PeerSends(conn, m) => WrittenToServer(n, conn, m.(origin := Peer(conn, None)))
    case ServerSends => WrittenToServer(n, n.srv, n.streamer.sent[n.taken])
    case _ => []
  }

  /** All that the relay wrote to the streamer in the first n steps. */
  ghost function Written(ns: seq<Net>, acts: seq<NetAction>, n: nat): seq<Msg>
    requires NetRun(ns, acts) && n <= |acts|
  {
    if n == 0 then [] else Written(ns, acts, n - 1) + WrittenBy(ns[n-1], acts[n-1])
  }

  /** The messages of ms, marked as inputs. */
  function Marked(ms: seq<Msg>): (r: seq<Msg>)
    ensures |r| == |ms| && forall i :: 0 <= i < |ms| ==> r[i] == ms[i].(mode := Input)
  {
    seq(|ms|, i requires 0 <= i < |ms| => ms[i].(mode := Input))
  }

  lemma MarkedConcat(a: seq<Msg>, b: seq<Msg>)
    ensures Marked(a + b) == Marked(a) + Marked(b)
  {
  }

  /** Inputs the streamer has, the one being pushed included. */
  function TakenIn(s: State): seq<Msg> {
    Inputs(s.handled + s.sigq.items) + if s.ws.Some? then [s.ws.value] else []
  }

  ghost predicate IntakeInv(n: Net, written: seq<Msg>) {
    !n.streamer.sigq.stopped ==> TakenIn(n.streamer) + Marked(n.down) == Marked(written)
  }

  lemma HandleWrites(n: Net, wsi: Conn, m: Msg)
    ensures var n' := Handle(n, wsi, m);
            n'.streamer == n.streamer && n'.down == n.down + WrittenToServer(n, wsi, m)
  {
  }

  lemma StreamerTakesIn(s: State, a: Action)
    requires TagsInv(s) && Enabled(s, a)
    ensures !Apply(s, a).sigq.stopped ==>
              !s.sigq.stopped
              && TakenIn(Apply(s, a)) == TakenIn(s) + if a.WsReceive? then [a.m.(mode := Input)] else []
  {
    StepQueueEffect(s, a);
    if !s.sigq.stopped {
      StepBringsInput(s, a, TakenIn(s), |Inputs(s.handled + s.sigq.items)|);
    }
  }

  lemma WrittenGrows(n: Net, written: seq<Msg>, more: seq<Msg>)
    requires IntakeInv(n, written)
    ensures IntakeInv(n.(down := n.down + more), written + more)
  {
    MarkedConcat(n.down, more);
    MarkedConcat(written, more);
    var had := TakenIn(n.streamer);
    assert had + (Marked(n.down) + Marked(more)) == (had + Marked(n.down)) + Marked(more);
  }

  lemma OnlyStreamerAndDown(n: Net, n': Net, written: seq<Msg>)
    requires IntakeInv(n, written) && n'.streamer == n.streamer && n'.down == n.down
    ensures IntakeInv(n', written)
  {
  }

  lemma ReceiveTakesIn(n: Net, written: seq<Msg>)
    requires NetEnabled(n, Delivers) && TagsInv(n.streamer) && IntakeInv(n, written)
    ensures IntakeInv(NetApply(n, Delivers), written)
  {
    var m := n.down[0];
    StreamerTakesIn(n.streamer, WsReceive(m));
    assert n.down == [m] + n.down[1..];
    MarkedConcat([m], n.down[1..]);
    assert Marked([m]) == [m.(mode := Input)];
  }

  lemma StepKeepsIntake(n: Net, a: NetAction, written: seq<Msg>)
    requires NetEnabled(n, a) && TagsInv(n.streamer) && IntakeInv(n, written)
    ensures IntakeInv(NetApply(n, a), written + WrittenBy(n, a))
  {
    if a.Delivers? {
      ReceiveTakesIn(n, written);
    } else if a.Streams? {
      StreamerTakesIn(n.streamer, a.a);
    } else if a.PeerSends? || a.ServerSends? {
      var wsi := if a.PeerSends? then a.conn else n.srv;
      var m := if a.PeerSends? then a.m.(origin := Peer(a.conn, None)) else n.streamer.sent[n.taken];
      HandleWrites(n, wsi, m);
      WrittenGrows(n, written, WrittenToServer(n, wsi, m));
      OnlyStreamerAndDown(n.(down := n.down + WrittenToServer(n, wsi, m)), NetApply(n, a),
                          written + WrittenToServer(n, wsi, m));
    }
    assert written + [] == written;
  }

  lemma {:induction false} RunKeepsIntake(ns: seq<Net>, acts: seq<NetAction>, n: nat)
    requires NetRun(ns, acts) && NetInit(ns[0]) && n <= |acts|
    ensures IntakeInv(ns[n], Written(ns, acts, n))
  {
    if n > 0 {
      RunKeepsIntake(ns, acts, n - 1);
      NetRunKeepsInv(ns, acts, n - 1);
      ReachableMessages(ns[n-1].streamer);
      StepKeepsIntake(ns[n-1], acts[n-1], Written(ns, acts, n - 1));
    }
  }

  /**
   Nothing written to the streamer is lost or reordered: before its signalling queue
   is stopped, the inputs the loop has handled, those in the queue, the one the
   callback is pushing and those on the way are all that the relay wrote to it,
   marked as inputs.
   */
  lemma EverythingWrittenIsTakenIn(ns: seq<Net>, acts: seq<NetAction>, n: nat)
    requires NetRun(ns, acts) && NetInit(ns[0]) && n <= |acts| && !ns[n].streamer.sigq.stopped
    ensures var s := ns[n].streamer;
            Inputs(s.handled + s.sigq.items) + (if s.ws.Some? then [s.ws.value] else []) + Marked(ns[n].down) ==
            Marked(Written(ns, acts, n))
  {
    RunKeepsIntake(ns, acts, n);
  }
}
